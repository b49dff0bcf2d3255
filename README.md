# Reflection-driven random value generator, modelled in Dafny

The modelled system builds random instances of Java classes by reflection. A
`Generator` is constructed from a list of type-generator providers (each a
map from a class to a zero-argument supplier) and a depth bound `maxDepth`.
`generateValueOfType(clazz)` then dispatches on the class through a fixed
chain: an eligibility test (registered, enum, array, `Collection`, `Map`,
or annotated `@Generatable`); `null` once the depth passes the bound; the
registered supplier; a random enum constant; an array of 1 to 9 elements;
an empty collection or map from a small factory; and finally the declared
constructors in order, after which every non-static, non-final field is
assigned. Collection and map fields are filled with 1 to 9 generated entries
when their type arguments are plain classes. Two standard providers supply
the eight primitive classes with their wrappers, and `java.lang.String`
(lower-case strings shorter than a configured length).

The Dafny project models:

- **Classes as metadata.** A Java `Class` is a name in a `World` map of
  `ClassInfo` records holding what reflection reports (`types.dfy`). Cyclic
  class graphs such as a binary tree node are therefore expressible.
- **`java.util.Random`** as a class holding the 48-bit linear congruential
  state, with the draw methods the generator uses (`random.dfy`).
- **Suppliers** by what they do: a constant (the lambdas of the tests), a
  primitive draw, or a lower-case string draw (`suppliers.dfy`).
- **The two standard providers** (`primitive_provider.dfy`, `string_provider.dfy`).
- **The registry merge** of the constructor (`registry.dfy`).
- **The dispatch chain** as a pure classification with a first-match
  specification (`dispatch.dfy`).
- **The generator** as a class whose methods follow the Java methods one by
  one (`generation.dfy`). They are proved against a ghost predicate
  `Conforms(config, class, depth, value)` that says which values generation
  at a depth may return (`conformance.dfy`). The predicate is defined by
  recursion on the remaining depth budget `maxDepth + 1 - depth`, the same
  measure that proves the generator terminates.
- **When generation fails, and with which error** as a second
  specification `Failure(config, class, depth)` (`failure.dfy`). It is
  defined by the same recursion: eligibility, the branch taken, the
  constructors in order with the last one's error passed on, and within a
  constructor first its parameters, then a null refused by a primitive
  parameter, then its body's exception, then its fields. Every generator
  method returns exactly the error this specification gives. Lemmas prove
  that the two specifications agree: when `Failure` reports an error, no
  value conforms.
- **Test-suite configurations** as lemmas (`scenarios.dfy`).

Generated values are a `Value` datatype. An instance records the index of the
constructor that built it, its arguments and the values assigned to its
fields. A collection or map records its concrete class and the `add` / `put`
calls made on it.

The source returns `null` past the bound even for a primitive class. The
model keeps this, along with its consequence: reflection refuses to store
that `null` in a primitive array slot, constructor parameter or field. The
model reports this as `NullForPrimitive`. `Scenarios.NoIntMatrixWithinBoundOne`
shows that with `maxDepth = 1` no `int[][]` can be generated.

## Model

| member | source | states |
|---|---|---|
| Randomness.Random.constructor | src/main/java/org/example/generator/Generator.java:21 | `new Random()` starts from the 48-bit state made of the given seed (the clock seed is a parameter) |
| Randomness.Random.NextIntBelow | src/main/java/org/example/generator/type/impl/StringGeneratorsProvider.java:15 | `nextInt(bound)` with a positive bound advances the seed once and makes a value in [0, bound) of the 31 drawn bits: their high bits, `(bound * bits) >> 31`, for a power-of-two bound, otherwise their remainder by the bound |
| Randomness.TwoValuedDrawIsTopBit | src/main/java/org/example/generator/Generator.java:159 | for a two-constant enum the ordinal `nextInt(2)` picks is the top bit of the 31-bit draw, not its lowest bit |
| Randomness.Random.NextIntBetween | src/main/java/org/example/generator/Generator.java:134 | `nextInt(origin, bound)` returns a value in [origin, bound), so array and container sizes lie in [1, 9] |
| Randomness.Random.NextInt | src/main/java/org/example/generator/type/impl/PrimitiveGeneratorsProvider.java:29-30 | `nextInt()` returns a signed 32-bit value |
| Randomness.Random.NextLong | src/main/java/org/example/generator/type/impl/PrimitiveGeneratorsProvider.java:32-33 | `nextLong()` returns a signed 64-bit value |
| Randomness.Random.NextFloat | src/main/java/org/example/generator/type/impl/PrimitiveGeneratorsProvider.java:35-36 | `nextFloat()` returns a value in [0, 1) |
| Randomness.Random.NextDouble | src/main/java/org/example/generator/type/impl/PrimitiveGeneratorsProvider.java:38-39 | `nextDouble()` returns a value in [0, 1) |
| Randomness.Random.NextBoolean | src/main/java/org/example/generator/type/impl/PrimitiveGeneratorsProvider.java:20-21 | `nextBoolean()` advances the seed once and is true exactly when the top bit of the new 48-bit state is set |
| PrimitiveProvider.ToByte | src/main/java/org/example/generator/type/impl/PrimitiveGeneratorsProvider.java:23-24 | the `(byte)` cast keeps the value modulo 256 and lands in [-128, 128), so values already in range are unchanged |
| PrimitiveProvider.ToShort | src/main/java/org/example/generator/type/impl/PrimitiveGeneratorsProvider.java:26-27 | the `(short)` cast keeps the value modulo 65536 and lands in [-32768, 32768), so values already in range are unchanged |
| PrimitiveProvider.ToChar | src/main/java/org/example/generator/type/impl/PrimitiveGeneratorsProvider.java:41-42 | the `(char)` cast keeps the value modulo 65536 and lands in [0, 65536), so values already in range are unchanged |
| PrimitiveProvider.Draw | src/main/java/org/example/generator/type/impl/PrimitiveGeneratorsProvider.java:20-42 | each supplier's value is in its range: byte in [0, 127), short in [0, 32767), char in [0, 65535), int and long signed, float and double in [0, 1) |
| PrimitiveProvider.DrawnValueIsBoxed | src/main/java/org/example/generator/type/impl/PrimitiveGeneratorsProvider.java:20-42 | a drawn value is an instance of the wrapper class of its primitive |
| PrimitiveProvider.PrimitiveGeneratorsProvider.constructor | src/main/java/org/example/generator/type/impl/PrimitiveGeneratorsProvider.java:12-14 | the provider keeps the `Random` it is given |
| PrimitiveProvider.PrimitiveGeneratorsProvider.GetGenerators | src/main/java/org/example/generator/type/impl/PrimitiveGeneratorsProvider.java:17-44 | the map's keys are exactly the eight primitive classes and their eight wrappers; `String` is not a key |
| PrimitiveProvider.KeyClassesCount | src/main/java/org/example/generator/type/impl/PrimitiveGeneratorsProvider.java:19-43 | the sixteen key names are distinct and do not include `java.lang.String` |
| PrimitiveProvider.SixteenKeysWithoutString | src/main/java/org/example/generator/type/impl/PrimitiveGeneratorsProvider.java:19-43 | `getGenerators` has exactly the sixteen keys, so sixteen entries, and no `String` key |
| PrimitiveProvider.SameDrawForWrapper | src/main/java/org/example/generator/type/impl/PrimitiveGeneratorsProvider.java:20-42 | a primitive class and its wrapper are both keys and map to the same draw rule |
| PrimitiveProvider.KeysArePrimitivesAndWrappers | src/main/java/org/example/generator/type/impl/PrimitiveGeneratorsProvider.java:19-43 | every key is a primitive class or a wrapper class and maps to the draw for that primitive |
| PrimitiveProvider.KeyPrimitive | src/main/java/org/example/generator/type/impl/PrimitiveGeneratorsProvider.java:19-43 | every key names the primitive it is drawn for, as the primitive class or its wrapper |
| PrimitiveProvider.SuppliedValueIsInstance | src/main/java/org/example/generator/type/impl/PrimitiveGeneratorsProvider.java:19-43 | a value supplied for a key is an instance of the wrapper of that key's primitive |
| StringProvider.NextLowercaseString | src/main/java/org/example/generator/type/impl/StringGeneratorsProvider.java:15-22 | with maxLength > 0 the string's length is the value `nextInt(maxLength)` makes of the first 31-bit draw (scaled for a power-of-two bound, otherwise the remainder; a rejected draw is not modelled), so it lies in [0, maxLength), and every character is in 'a'..'z'; otherwise the bound is refused and nothing is drawn |
| StringProvider.StringGeneratorsProvider.constructor | src/main/java/org/example/generator/type/impl/StringGeneratorsProvider.java:12-23 | the supplier is built once, from the given `Random` and maxLength |
| StringProvider.StringGeneratorsProvider.GetGenerators | src/main/java/org/example/generator/type/impl/StringGeneratorsProvider.java:26-29 | the map has exactly one key, `String`, mapped to the supplier built by the constructor |
| Suppliers.Supply | src/main/java/org/example/generator/Generator.java:79-81 | a registered supplier's value is one that supplier can yield; only a string supplier with a non-positive bound fails |
| Suppliers.SuppliedStringIsString | src/main/java/org/example/generator/type/impl/StringGeneratorsProvider.java:15-22 | the string supplier's value is a `java.lang.String` |
| Registries.UnionKeys | src/main/java/org/example/generator/Generator.java:28-47 | a class is in the merged registry exactly when some provider registers it |
| Registries.UnionValue | src/main/java/org/example/generator/Generator.java:33-47 | without duplicates, each class maps to the supplier of the one provider registering it |
| Registries.MergeProviders | src/main/java/org/example/generator/Generator.java:28-47 | the merge succeeds exactly when no class is registered twice; the result is then the union of the provider maps; otherwise the error names the class whose second registration comes first: it is in a table after which the earlier tables are disjoint, and one of them already registers it |
| Registries.MergeOfTwo | src/main/java/org/example/generator/Generator.java:28-47 | two tables with no common class merge into a registry of the combined size |
| Registries.StandardProvidersMerge | src/main/java/org/example/generator/Generator.java:37-41 | the primitive and string providers never trip the duplicate check and merge into 17 entries |
| Dispatch.BranchFor | src/main/java/org/example/generator/Generator.java:79-111 | the branch taken passes its test and no earlier test of the chain (registry, enum, array, Collection, Map, constructors) passes |
| Dispatch.CanBeGenerated | src/main/java/org/example/generator/Generator.java:114-121 | a class is eligible exactly when some branch of the dispatch chain (registry, enum, array, Collection, Map, annotated) applies to it |
| Dispatch.EligibleIffDispatched | src/main/java/org/example/generator/Generator.java:114-121 | `canBeGenerated` holds exactly when some branch of the chain is taken |
| Dispatch.RegistryFirst | src/main/java/org/example/generator/Generator.java:79-81 | a registered class is always supplied, whatever else it is |
| Dispatch.CollectionFromClass | src/main/java/org/example/generator/Generator.java:162-168 | Set gives HashSet, checked before Queue; Queue gives LinkedList; any other collection gives ArrayList |
| Dispatch.MapFromClass | src/main/java/org/example/generator/Generator.java:170-175 | SortedMap gives TreeMap and any other map gives HashMap |
| Conformance.PastBoundIsNull | src/main/java/org/example/generator/Generator.java:74-77 | past the bound the only possible result is null, primitive classes included |
| Conformance.RejectedHasNoValue | src/main/java/org/example/generator/Generator.java:68-72 | an ineligible class has no possible result at any depth |
| Conformance.EmptyEnumHasNoValue | src/main/java/org/example/generator/Generator.java:153-157 | within the bound an enum with no constants has no possible result |
| Conformance.NoConstructorHasNoValue | src/main/java/org/example/generator/Generator.java:99-111 | within the bound a class that falls through to constructors but declares none has no possible result |
| Conformance.DirectContainerIsEmpty | src/main/java/org/example/generator/Generator.java:91-97 | a directly requested collection or map is empty and of the factory's class |
| Conformance.NestedElementConforms | src/main/java/org/example/generator/Generator.java:134-140 | an element reached through n nested arrays is generated at depth + n for the class n dimensions down, so it is null once that depth passes the bound |
| Conformance.PrimitiveSlotsHoldNoNull | src/main/java/org/example/generator/Generator.java:137-140 | a generated array of a primitive component holds no null |
| Conformance.AssignableNamesMembers | src/main/java/org/example/generator/Generator.java:192-196 | a name is recorded exactly when a non-static, non-final field carries it |
| Conformance.FieldAssignedIffAssignable | src/main/java/org/example/generator/Generator.java:192-208 | with distinct field names, an instance has a value for a declared field exactly when the field is neither static nor final |
| Conformance.FieldsConformStep | src/main/java/org/example/generator/Generator.java:192-208 | skipping a static or final field, or assigning a conforming value to another, extends the handled prefix of the declared fields |
| Conformance.FieldsConformAll | src/main/java/org/example/generator/Generator.java:192-208 | once every declared field is handled, the instance's fields conform |
| Failures.FailedHasNoValue | src/main/java/org/example/generator/Generator.java:63-112 | when the failure specification says generation fails, no value conforms: the two specifications of `generateValueOfType` agree |
| Failures.SlotFailedHasNoValue | src/main/java/org/example/generator/Generator.java:134-140 | a failing array slot has no conforming, storable element |
| Failures.CtorFailedHasNoInstance | src/main/java/org/example/generator/Generator.java:177-211 | a failing constructor builds no conforming instance, whatever the arguments and field values |
| Failures.ParamsFailedHasNoArguments | src/main/java/org/example/generator/Generator.java:181-186 | when the parameter list fails, no argument list conforms |
| Failures.FieldsFailedHasNoValues | src/main/java/org/example/generator/Generator.java:192-208 | when the field list fails, no assignment of field values conforms |
| Failures.FieldFailedHasNoValue | src/main/java/org/example/generator/Generator.java:199-207 | when one field fails, no value conforms for it |
| Failures.NullIffResultIsNull | src/main/java/org/example/generator/Generator.java:74-81 | a generated value is null exactly when the depth is past the bound or the class's supplier returns null |
| Failures.StorableIffNotRefused | src/main/java/org/example/generator/Generator.java:74-77 | a generated value fits its slot exactly when the slot is not a primitive receiving null |
| Failures.FirstRefusedFinds | src/main/java/org/example/generator/Generator.java:188 | the refusal search reports a parameter exactly when some primitive parameter gets null, and reports the leftmost |
| Failures.ParamsFailurePrefix | src/main/java/org/example/generator/Generator.java:181-186 | once a parameter fails, later parameters do not change the error |
| Failures.FirstRefusedPrefix | src/main/java/org/example/generator/Generator.java:188 | once a refused parameter is found, later parameters do not change which one is reported |
| Failures.FieldsFailurePrefix | src/main/java/org/example/generator/Generator.java:192-208 | once a field fails, later fields do not change the error |
| Generation.Generator.Init | src/main/java/org/example/generator/Generator.java:47-52 | the generator keeps the merged registry, the bound and its own `Random`, and the registry never changes afterwards |
| Generation.Generator.New | src/main/java/org/example/generator/Generator.java:23-55 | a duplicate registration is reported first, naming the first class registered a second time; then a non-positive maxDepth is refused; otherwise the registry is the union of the provider maps |
| Generation.Generator.GenerateValueOfType | src/main/java/org/example/generator/Generator.java:57-61 | generation starts at depth 0; a success conforms, and the call fails, with exactly the error, when the failure specification `Failures.Failure` says so at depth 0 |
| Generation.Generator.GenerateAt | src/main/java/org/example/generator/Generator.java:63-112 | fails exactly when, and with the error, `Failures.Failure` gives; an ineligible class fails even past the bound and draws nothing; past the bound the result is null with no draw; an empty enum fails naming it; a bare collection or map is returned without a draw; no constructors gives the "No suitable constructor" error; any success conforms |
| Generation.Generator.GenerateEnum | src/main/java/org/example/generator/Generator.java:145-160 | an enum with no constants fails naming the enum and draws nothing; otherwise the result is one of its constants |
| Generation.Generator.GenerateArray | src/main/java/org/example/generator/Generator.java:124-143 | the array has 1 to 9 elements, each a value of the component class generated at depth + 1 that the slot accepts; it fails exactly when the component fails at depth + 1, or its null is refused by a primitive slot |
| Generation.Generator.TryConstructorsInOrder | src/main/java/org/example/generator/Generator.java:99-111 | constructors are tried in declared order; a success comes from the first constructor that can succeed, after every earlier one failed; when all fail, the error is the last constructor's own; none declared gives the "No suitable constructor" error |
| Generation.Generator.TryConstructor | src/main/java/org/example/generator/Generator.java:177-211 | a success is an instance built by that constructor with conforming arguments and fields; the error is, in order, the first failing parameter's, a null refused by the leftmost primitive parameter, the reflection wrapper of the body's exception, then the first failing field's |
| Generation.Generator.CheckArguments | src/main/java/org/example/generator/Generator.java:188 | `newInstance` refuses the argument list exactly when some primitive parameter receives null, and the reported class is the leftmost such parameter |
| Generation.Generator.GenerateParameters | src/main/java/org/example/generator/Generator.java:181-186 | one value per parameter, in order, each generated at depth + 1; the first parameter whose generation fails stops the loop and its error is returned |
| Generation.Generator.PopulateFields | src/main/java/org/example/generator/Generator.java:192-208 | exactly the non-static, non-final fields are assigned, each to a value its rule allows; the first assignable field whose generation or assignment fails stops the loop with its error |
| Generation.Generator.GenerateField | src/main/java/org/example/generator/Generator.java:199-207 | a Collection field gets the collection filler, a Map field the map filler, any other field a value generated at depth + 1 that the field accepts; it fails exactly when that generation fails or a primitive field refuses null |
| Generation.Generator.GenerateCollectionFromField | src/main/java/org/example/generator/Generator.java:213-235 | the container is the factory's class; it receives 1 to 9 `add` calls of elements generated at depth + 1 when the one type argument is a plain class, and is otherwise empty with nothing drawn; it fails exactly when the element class fails at depth + 1 |
| Generation.Generator.GenerateMapFromField | src/main/java/org/example/generator/Generator.java:237-262 | the map is the factory's class; it receives 1 to 9 puts of a key and a value generated at depth + 1 when both type arguments are plain classes, and is otherwise empty with nothing drawn; it fails exactly when the key class, or else the value class, fails at depth + 1 |
| Scenarios.DuplicateStringProviders | src/test/java/org/example/generator/GeneratorTest.java:26-40 | two providers both registering `String` are refused, with the message naming `java.lang.String` |
| Scenarios.InvalidMaxDepthMessages | src/test/java/org/example/generator/GeneratorTest.java:42-52 | the messages for a maxDepth of -1 and of 0 |
| Types.Error.Message | src/main/java/org/example/generator/Generator.java:102-107 | the reflection wrapper of a constructor body's exception has no message of its own (the empty string here); every other error has a non-empty message |
| Types.MessageNamesCause | src/main/java/org/example/generator/Generator.java:37-156 | each message names its cause: the duplicate-provider (37-40) and "No suitable constructor" (111) messages end with the class name, the maxDepth message (49-51) ends with the rejected value, and the empty-enum message (153-156) names the enum between its quotes |
| Scenarios.NullPlacedAtMaxDepth | src/test/java/org/example/generator/GeneratorTest.java:103-113 | with maxDepth 1 a generated `String[][]` is a non-empty array whose inner elements are all null |
| Scenarios.NoIntMatrixWithinBoundOne | src/main/java/org/example/generator/Generator.java:74-77 | with maxDepth 1 no `int[][]` can be generated: the innermost `int` comes back null and the slot refuses it |
| Scenarios.StringMatrixGenerates | src/test/java/org/example/generator/GeneratorTest.java:103-113 | with maxDepth 1, generating `String[][]` does not fail |
| Scenarios.IntMatrixFailsOnRefusedNull | src/main/java/org/example/generator/Generator.java:74-77 | with maxDepth 1, generating `int[][]` fails because the innermost `int` slot refuses null |
| Scenarios.LastConstructorErrorSurfaces | src/main/java/org/example/generator/Generator.java:99-111 | when both constructors throw, the error is the wrapper of the second one's exception, whose cause carries its reason |
| Scenarios.LaterConstructorRecovers | src/main/java/org/example/generator/Generator.java:99-111 | when the first constructor throws and the second returns, generation succeeds through the second |
| Scenarios.FirstCollisionNamesEarliestRepeat | src/main/java/org/example/generator/Generator.java:30-41 | for registries {x, y}, {y}, {x}, the reported duplicate is `y`, the class whose repeat comes first |

## Left out

- Classpath scanning (`PackageUtils`) and the unused `packageMarker` / `packageToScan` argument of the constructor: neither affects generation.
- Reflection itself is not computed. Class metadata (`ClassInfo`) is a parameter of the generator. A constructor's body is reduced to one fixed outcome, returns or throws, independent of its arguments. What a constructor body does to the fields is not recorded.
- Identity and aliasing: generated objects are values. A Java instance is fresh and reachable only from its result, so nothing observable is lost except object identity.
- Randomness.Random.NextIntBelow, Randomness.Random.NextIntBetween: the JDK's rejection loop is not modelled. It draws again when the 31-bit value falls in the last, incomplete multiple of the bound (never for a power of two). `NextIntBelow`'s value is therefore exact only when the first draw is accepted. `NextIntBetween` is stated by its range only, and its remainder replaces the JDK's masking for a power-of-two width. Distributions are not modelled.
- PrimitiveProvider.Draw: float, double and long draws are stated by range only. Their exact floating-point results are out of scope.
- Randomness.Random.NextLong, Randomness.Random.NextDouble: their contracts state the range only, not the exact joined bits.
- PrimitiveProvider.PrimitiveGeneratorsProvider.GetGenerators: its contract states the key set; the rule under each key is stated by `SameDrawForWrapper` and `KeysArePrimitivesAndWrappers`.
- Generation.Generator.GenerateParameters: the `Object[]` argument array is built as a sequence that grows by one value per parameter. The array is local and never shared before `newInstance`, so only its in-place update is not modelled.
- The clock seed of `new Random()` is a constructor parameter.
- Java collection semantics: HashSet and HashMap duplicate elimination and hash ordering are not modelled. A container records its `add` / `put` calls, so a set or map can hold fewer distinct entries than calls.
- TreeMap's refusal of null or non-comparable keys is not modelled.
- Type mismatches other than null for a primitive are not modelled. Examples: a `TreeSet` field receiving the `HashSet` the factory builds, or a supplier whose value is not of the key class.
- Errors: the distinct exception classes (`GenerationException`, `IllegalArgumentException`, `InvocationTargetException`, `IllegalAccessException`) are one `Error` datatype. Reflection's own wording for a refused null is replaced by one `NullForPrimitive` message.
- Types.Error.Message: Java's `InvocationTargetException` has a null message; the model gives it the empty string and keeps the body's message as `reason`, the wrapper's cause.
- The `IllegalStateException` guards of `generateArray` and `generateEnum` cannot fire from the dispatch chain. They are preconditions of those methods.
- Access checks and `setAccessible` are out.
- `depth + 1` is an unbounded integer, and the JVM's `StackOverflowError` on deep recursion is not modelled. In the source only that error, which `catch (Exception e)` does not catch, keeps `depth + 1` from wrapping when `maxDepth` is close to `Integer.MAX_VALUE`; for a self-referential class with a large `maxDepth` the source throws where the model returns a finite value.
