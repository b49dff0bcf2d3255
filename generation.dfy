/**
 * The `Generator` object: built from provider tables and a depth bound, it
 * generates a value of a requested class by the fixed dispatch chain,
 * recursing through array slots, constructor parameters and fields, one depth
 * unit per level.
 */
module Generation {
  import opened Wrappers
  import opened Randomness
  import opened Types
  import opened Dispatch
  import opened Suppliers
  import opened Conformance
  import opened Failures
  import Registries

  class Generator {
    /** The merged registry; fixed at construction. */
    const generators: Registry
    const maxDepth: int
    /** Reflection metadata of the loaded classes. */
    const world: World
    /** The generator's own `Random`, used for array and container sizes and enum ordinals. */
    const random: Random
    /** Every `Random` generation may advance: the generator's own and the ones the registered suppliers draw from. */
    ghost const randoms: set<Random>

    ghost predicate Valid() {
      && maxDepth > 0
      && Closed(world)
      && random in randoms
      && forall k :: k in generators ==> generators[k].Sources() <= randoms
    }

    function Cfg(): Config {
      Config(world, generators, maxDepth)
    }

    constructor Init(generators: Registry, maxDepth: int, world: World, seed: nat)
      requires maxDepth > 0 && Closed(world)
      ensures Valid()
      ensures this.generators == generators && this.maxDepth == maxDepth && this.world == world
      ensures fresh(random)
    {
      this.generators := generators;
      this.maxDepth := maxDepth;
      this.world := world;
      var own := new Random(seed);
      this.random := own;
      this.randoms := {own} + set k, r | k in generators && r in generators[k].Sources() :: r;
    }

    /**
     * The public constructor: merge the providers' tables, rejecting a class
     * two of them register, and only then reject a non-positive `maxDepth`.
     * The `Random` is seeded by the caller instead of the clock.
     */
    static method New(providers: seq<Registry>, maxDepth: int, world: World, seed: nat) returns (r: Result<Generator, Error>)
      requires Closed(world)
      ensures !Registries.PairwiseDisjoint(providers) ==>
                && r.Err? && r.error.DuplicateGenerator?
                && Registries.RegisteredTwice(providers, r.error.cls)
                && Registries.FirstCollision(providers, r.error.cls)
      ensures Registries.PairwiseDisjoint(providers) && maxDepth <= 0 ==> r == Err(InvalidMaxDepth(maxDepth))
      ensures r.Ok? <==> Registries.PairwiseDisjoint(providers) && maxDepth > 0
      ensures r.Ok? ==> && fresh(r.value) && r.value.Valid()
                        && r.value.generators == Registries.UnionOf(providers)
                        && r.value.maxDepth == maxDepth && r.value.world == world
    {
      var merged := Registries.MergeProviders(providers);
      if merged.Err? {
        return Err(merged.error);
      }
      if maxDepth <= 0 {
        return Err(InvalidMaxDepth(maxDepth));
      }
      var g := new Generator.Init(merged.value, maxDepth, world, seed);
      return Ok(g);
    }

    /** `generateValueOfType(clazz)`: generation starts at depth 0. */
    method GenerateValueOfType(cls: ClassName) returns (r: Result<Value, Error>)
      requires Valid() && cls in world
      modifies randoms
      ensures r.Ok? ==> Conforms(Cfg(), cls, 0, r.value)
      ensures ErrorOf(r) == Failure(Cfg(), cls, 0)
      ensures BranchOf(Cfg(), cls) == Rejected ==> r == Err(NotGeneratable) && unchanged(randoms)
    {
      r := GenerateAt(cls, 0);
    }

    /**
     * `generateValueOfType(clazz, depth)`. The eligibility test comes first,
     * so an ineligible class is rejected even past the bound; past the bound
     * an eligible class gives null without touching any `Random`.
     */
    method GenerateAt(cls: ClassName, depth: nat) returns (r: Result<Value, Error>)
      requires Valid() && cls in world
      modifies randoms
      decreases Budget(Cfg(), depth), 5
      ensures r.Ok? ==> Conforms(Cfg(), cls, depth, r.value)
      ensures ErrorOf(r) == Failure(Cfg(), cls, depth)
      ensures BranchOf(Cfg(), cls) == Rejected ==> r == Err(NotGeneratable) && unchanged(randoms)
      ensures BranchOf(Cfg(), cls) != Rejected && depth > maxDepth ==> r == Ok(Null) && unchanged(randoms)
      ensures depth <= maxDepth && BranchOf(Cfg(), cls) == RegistryBranch ==>
                (r.Err? <==> generators[cls].LowercaseString? && generators[cls].maxLength <= 0)
      ensures depth <= maxDepth && BranchOf(Cfg(), cls) == EnumBranch ==>
                (r.Err? <==> world[cls].enumConstants.value == 0) && (r.Err? ==> r.error == EmptyEnum(cls))
      ensures depth <= maxDepth && BranchOf(Cfg(), cls) in {CollectionBranch, MapBranch} ==> r.Ok? && unchanged(randoms)
      ensures depth <= maxDepth && BranchOf(Cfg(), cls) == ConstructorBranch && |world[cls].constructors| == 0 ==>
                r == Err(NoSuitableConstructor(cls))
    {
      var info := world[cls];
      EligibleIffDispatched(cls in generators, info);
      if !CanBeGenerated(cls in generators, info) {
        return Err(NotGeneratable);
      }
      if depth > maxDepth {
        return Ok(Null);
      }
      if cls in generators {
        r := Supply(generators[cls]);
        return;
      }
      if info.enumConstants.Some? {
        r := GenerateEnum(cls);
        return;
      }
      if info.componentType.Some? {
        r := GenerateArray(cls, depth);
        return;
      }
      if info.collectionKind.Some? {
        return Ok(CollectionValue(CollectionFromClass(info.collectionKind.value), []));
      }
      if info.mapKind.Some? {
        return Ok(MapValue(MapFromClass(info.mapKind.value), []));
      }
      r := TryConstructorsInOrder(cls, depth);
    }

    /** `generateEnum`: one of the declared constants, chosen by an index in [0, count). */
    method GenerateEnum(cls: ClassName) returns (r: Result<Value, Error>)
      requires Valid() && cls in world && world[cls].enumConstants.Some?
      modifies random
      ensures r.Err? <==> world[cls].enumConstants.value == 0
      ensures r.Err? ==> r.error == EmptyEnum(cls) && unchanged(random)
      ensures r.Ok? ==> r.value.EnumConstant? && r.value.enumClass == cls
                        && r.value.ordinal < world[cls].enumConstants.value
    {
      var count := world[cls].enumConstants.value;
      if count == 0 {
        return Err(EmptyEnum(cls));
      }
      var index := random.NextIntBelow(count);
      return Ok(EnumConstant(cls, index));
    }

    /**
     * `generateArray`: a length in [1, 10), then each slot, in order, filled
     * with a value of the component class generated one level deeper.
     */
    method GenerateArray(cls: ClassName, depth: nat) returns (r: Result<Value, Error>)
      requires Valid() && cls in world && world[cls].componentType.Some?
      requires depth <= maxDepth
      modifies randoms
      decreases Budget(Cfg(), depth), 4
      ensures r.Ok? ==>
                && r.value.ArrayValue? && r.value.arrayClass == cls
                && 1 <= |r.value.elements| <= 9
                && forall i :: 0 <= i < |r.value.elements| ==>
                     && Conforms(Cfg(), world[cls].componentType.value, depth + 1, r.value.elements[i])
                     && Storable(world, world[cls].componentType.value, r.value.elements[i])
      ensures ErrorOf(r) == SlotFailure(Cfg(), world[cls].componentType.value, depth + 1)
    {
      var component := world[cls].componentType.value;
      var length := random.NextIntBetween(1, 10);
      var result := new Value[length];
      for i := 0 to length
        invariant i > 0 ==> SlotFailure(Cfg(), component, depth + 1).None?
        invariant forall j :: 0 <= j < i ==>
                    Conforms(Cfg(), component, depth + 1, result[j]) && Storable(world, component, result[j])
      {
        var element := GenerateAt(component, depth + 1);
        if element.Err? {
          return Err(element.error);
        }
        StorableIffNotRefused(Cfg(), component, depth + 1, element.value);
        if !Storable(world, component, element.value) {
          return Err(NullForPrimitive(component));
        }
        result[i] := element.value;
      }
      return Ok(ArrayValue(cls, result[..]));
    }

    /**
     * The constructor loop of `generateValueOfType`: constructors are tried in
     * declared order and the first that succeeds wins. A failure is swallowed
     * unless it is the last constructor's, which is passed on.
     */
    method TryConstructorsInOrder(cls: ClassName, depth: nat) returns (r: Result<Value, Error>)
      requires Valid() && cls in world && depth <= maxDepth
      modifies randoms
      decreases Budget(Cfg(), depth), 4
      ensures ErrorOf(r) == ConstructorsFailure(Cfg(), cls, depth)
      ensures r.Ok? ==> && InstanceConforms(Cfg(), cls, depth, r.value)
                        && CtorFailure(Cfg(), cls, r.value.constructorIndex, depth).None?
                        && forall j :: 0 <= j < r.value.constructorIndex ==> CtorFailure(Cfg(), cls, j, depth).Some?
      ensures r.Err? && |world[cls].constructors| > 0 ==>
                && (forall j :: 0 <= j < |world[cls].constructors| ==> CtorFailure(Cfg(), cls, j, depth).Some?)
                && Some(r.error) == CtorFailure(Cfg(), cls, |world[cls].constructors| - 1, depth)
    {
      var constructors := world[cls].constructors;
      var i := 0;
      while i < |constructors|
        invariant 0 <= i <= |constructors|
        invariant i < |constructors| || |constructors| == 0
        invariant forall j :: 0 <= j < i ==> CtorFailure(Cfg(), cls, j, depth).Some?
      {
        var attempt := TryConstructor(cls, i, depth);
        if attempt.Ok? {
          return attempt;
        }
        if i == |constructors| - 1 {
          return attempt;
        }
        i := i + 1;
      }
      return Err(NoSuitableConstructor(cls));
    }

    /**
     * `tryConstructor`: generate the parameters, invoke the constructor, then
     * assign the fields. Reflection refuses null for a primitive parameter
     * before the constructor body runs.
     */
    method TryConstructor(cls: ClassName, k: nat, depth: nat) returns (r: Result<Value, Error>)
      requires Valid() && cls in world && k < |world[cls].constructors| && depth <= maxDepth
      modifies randoms
      decreases Budget(Cfg(), depth), 3
      ensures r.Ok? ==> && r.value.Instance? && r.value.constructorIndex == k
                        && InstanceConforms(Cfg(), cls, depth, r.value)
      ensures ErrorOf(r) == CtorFailure(Cfg(), cls, k, depth)
      ensures world[cls].constructors[k].outcome.Throws? ==> r.Err?
      ensures var ctor := world[cls].constructors[k];
              (&& ParamsFailure(Cfg(), ctor.params, |ctor.params|, depth).None?
               && FirstRefused(Cfg(), ctor.params, |ctor.params|, depth + 1).None?
               && ctor.outcome.Throws?)
              ==> r == Err(ConstructorThrew(cls, ctor.outcome.reason))
    {
      var ctor := world[cls].constructors[k];
      assert ctor in world[cls].constructors;
      var arguments := GenerateParameters(ctor, depth);
      if arguments.Err? {
        return Err(arguments.error);
      }
      var args := arguments.value;
      forall i | 0 <= i < |args|
        ensures args[i] == Null <==> ResultIsNull(Cfg(), ctor.params[i], depth + 1)
      {
        NullIffResultIsNull(Cfg(), ctor.params[i], depth + 1, args[i]);
      }
      var refused := CheckArguments(ctor, depth, args);
      if refused.Some? {
        return Err(NullForPrimitive(refused.value));
      }
      if ctor.outcome.Throws? {
        return Err(ConstructorThrew(cls, ctor.outcome.reason));
      }
      var fields := PopulateFields(cls, depth);
      if fields.Err? {
        return Err(fields.error);
      }
      return Ok(Instance(cls, k, args, fields.value));
    }

    /**
     * Reflection's check of the arguments before the constructor body runs:
     * the first primitive parameter, left to right, handed a null.
     */
    method CheckArguments(ctor: Constructor, depth: nat, args: seq<Value>) returns (refused: Option<ClassName>)
      requires depth <= maxDepth && |args| == |ctor.params|
      requires forall i :: 0 <= i < |args| ==> (args[i] == Null <==> ResultIsNull(Cfg(), ctor.params[i], depth + 1))
      ensures refused == FirstRefused(Cfg(), ctor.params, |ctor.params|, depth + 1)
      ensures refused.None? <==> forall i :: 0 <= i < |args| ==> Storable(world, ctor.params[i], args[i])
    {
      for i := 0 to |args|
        invariant FirstRefused(Cfg(), ctor.params, i, depth + 1).None?
        invariant forall j :: 0 <= j < i ==> Storable(world, ctor.params[j], args[j])
      {
        if !Storable(world, ctor.params[i], args[i]) {
          FirstRefusedPrefix(Cfg(), ctor.params, i + 1, |args|, depth + 1);
          return Some(ctor.params[i]);
        }
      }
      return None;
    }

    /** The parameter loop of `tryConstructor`: one value per parameter, left to right, one level deeper. */
    method GenerateParameters(ctor: Constructor, depth: nat) returns (r: Result<seq<Value>, Error>)
      requires Valid() && depth <= maxDepth
      requires forall i :: 0 <= i < |ctor.params| ==> ctor.params[i] in world
      modifies randoms
      decreases Budget(Cfg(), depth), 2
      ensures r.Ok? ==> && |r.value| == |ctor.params|
                        && forall i :: 0 <= i < |r.value| ==> Conforms(Cfg(), ctor.params[i], depth + 1, r.value[i])
      ensures ErrorOf(r) == ParamsFailure(Cfg(), ctor.params, |ctor.params|, depth)
    {
      var paramValues: seq<Value> := [];
      for i := 0 to |ctor.params|
        invariant ParamsFailure(Cfg(), ctor.params, i, depth).None?
        invariant |paramValues| == i
        invariant forall j :: 0 <= j < i ==> Conforms(Cfg(), ctor.params[j], depth + 1, paramValues[j])
      {
        var p := GenerateAt(ctor.params[i], depth + 1);
        if p.Err? {
          ParamsFailurePrefix(Cfg(), ctor.params, i + 1, |ctor.params|, depth);
          return Err(p.error);
        }
        paramValues := paramValues + [p.value];
      }
      return Ok(paramValues);
    }

    /**
     * The field loop of `tryConstructor`: in declaration order, skip static
     * and final fields and assign each other one: a `Collection` or `Map`
     * field from its filler, anything else a value one level deeper.
     */
    method PopulateFields(cls: ClassName, depth: nat) returns (r: Result<map<string, Value>, Error>)
      requires Valid() && cls in world && depth <= maxDepth
      modifies randoms
      decreases Budget(Cfg(), depth), 2
      ensures r.Ok? ==> FieldsConform(Cfg(), world[cls].fields, depth, r.value)
      ensures ErrorOf(r) == FieldsFailure(Cfg(), world[cls].fields, |world[cls].fields|, depth)
    {
      var declared := world[cls].fields;
      assert RefersWithin(world, world[cls]);
      var fields: map<string, Value> := map[];
      for j := 0 to |declared|
        invariant FieldsFailure(Cfg(), declared, j, depth).None?
        invariant FieldsConformUpTo(Cfg(), declared, j, depth, fields)
      {
        var field := declared[j];
        if field.isStatic || field.isFinal {
          FieldsConformStep(Cfg(), declared, j, depth, fields, Null);
          continue;
        }
        assert field in world[cls].fields;
        var fieldValue := GenerateField(field, depth);
        if fieldValue.Err? {
          FieldsFailurePrefix(Cfg(), declared, j + 1, |declared|, depth);
          return Err(fieldValue.error);
        }
        FieldsConformStep(Cfg(), declared, j, depth, fields, fieldValue.value);
        fields := fields[field.name := fieldValue.value];
      }
      FieldsConformAll(Cfg(), declared, depth, fields);
      return Ok(fields);
    }

    /**
     * The value one assignable field receives: the switch on the field's
     * class, then reflection's refusal of null for a primitive field.
     */
    method GenerateField(field: Field, depth: nat) returns (r: Result<Value, Error>)
      requires Valid() && field.cls in world && ArgumentsWithin(world, field.genericType) && depth <= maxDepth
      modifies randoms
      decreases Budget(Cfg(), depth), 1
      ensures r.Ok? ==> FieldConforms(Cfg(), field, depth, r.value)
      ensures ErrorOf(r) == FieldFailure(Cfg(), field, depth)
    {
      var fieldInfo := world[field.cls];
      if fieldInfo.collectionKind.Some? {
        r := GenerateCollectionFromField(field, depth);
      } else if fieldInfo.mapKind.Some? {
        r := GenerateMapFromField(field, depth);
      } else {
        r := GenerateAt(field.cls, depth + 1);
        if r.Ok? {
          StorableIffNotRefused(Cfg(), field.cls, depth + 1, r.value);
        }
      }
      if r.Ok? && !Storable(world, field.cls, r.value) {
        r := Err(NullForPrimitive(field.cls));
      }
    }

    /**
     * `generateCollectionFromField`: the factory's container for the field's
     * class, filled with 1 to 9 elements generated one level deeper when the
     * field's one type argument is a plain class, empty otherwise.
     */
    method GenerateCollectionFromField(f: Field, depth: nat) returns (r: Result<Value, Error>)
      requires Valid() && f.cls in world && world[f.cls].collectionKind.Some?
      requires ArgumentsWithin(world, f.genericType) && depth <= maxDepth
      modifies randoms
      decreases Budget(Cfg(), depth), 0
      ensures r.Ok? ==> r.value.CollectionValue?
                        && r.value.collectionImpl == CollectionFromClass(world[f.cls].collectionKind.value)
      ensures SingleClassArgument(f.genericType).None? ==> r == Ok(CollectionValue(CollectionFromClass(world[f.cls].collectionKind.value), [])) && unchanged(randoms)
      ensures r.Ok? && SingleClassArgument(f.genericType).Some? ==>
                && 1 <= |r.value.added| <= 9
                && forall i :: 0 <= i < |r.value.added| ==>
                     Conforms(Cfg(), SingleClassArgument(f.genericType).value, depth + 1, r.value.added[i])
      ensures ErrorOf(r) == CollectionFieldFailure(Cfg(), f, depth)
    {
      var collection := CollectionFromClass(world[f.cls].collectionKind.value);
      var added: seq<Value> := [];
      if f.genericType.Parameterized? {
        var typeArgs := f.genericType.arguments;
        if |typeArgs| == 1 && typeArgs[0].ClassArgument? {
          var elementType := typeArgs[0].cls;
          assert typeArgs[0] in typeArgs;
          var length := random.NextIntBetween(1, 10);
          for i := 0 to length
            invariant |added| == i
            invariant i > 0 ==> Failure(Cfg(), elementType, depth + 1).None?
            invariant forall j :: 0 <= j < i ==> Conforms(Cfg(), elementType, depth + 1, added[j])
          {
            var element := GenerateAt(elementType, depth + 1);
            if element.Err? {
              return Err(element.error);
            }
            added := added + [element.value];
          }
        }
      }
      return Ok(CollectionValue(collection, added));
    }

    /**
     * `generateMapFromField`: the factory's map for the field's class, given
     * 1 to 9 `put`s of a key and then a value, each generated one level
     * deeper, when both type arguments are plain classes; empty otherwise.
     */
    method GenerateMapFromField(f: Field, depth: nat) returns (r: Result<Value, Error>)
      requires Valid() && f.cls in world && world[f.cls].mapKind.Some?
      requires ArgumentsWithin(world, f.genericType) && depth <= maxDepth
      modifies randoms
      decreases Budget(Cfg(), depth), 0
      ensures r.Ok? ==> r.value.MapValue? && r.value.mapImpl == MapFromClass(world[f.cls].mapKind.value)
      ensures TwoClassArguments(f.genericType).None? ==> r == Ok(MapValue(MapFromClass(world[f.cls].mapKind.value), [])) && unchanged(randoms)
      ensures r.Ok? && TwoClassArguments(f.genericType).Some? ==>
                && 1 <= |r.value.puts| <= 9
                && forall i :: 0 <= i < |r.value.puts| ==>
                     && Conforms(Cfg(), TwoClassArguments(f.genericType).value.0, depth + 1, r.value.puts[i].0)
                     && Conforms(Cfg(), TwoClassArguments(f.genericType).value.1, depth + 1, r.value.puts[i].1)
      ensures ErrorOf(r) == MapFieldFailure(Cfg(), f, depth)
    {
      var mapImpl := MapFromClass(world[f.cls].mapKind.value);
      var puts: seq<(Value, Value)> := [];
      if f.genericType.Parameterized? {
        var typeArgs := f.genericType.arguments;
        if |typeArgs| == 2 && typeArgs[0].ClassArgument? && typeArgs[1].ClassArgument? {
          var keyType := typeArgs[0].cls;
          var valueType := typeArgs[1].cls;
          assert typeArgs[0] in typeArgs && typeArgs[1] in typeArgs;
          var size := random.NextIntBetween(1, 10);
          for i := 0 to size
            invariant |puts| == i
            invariant i > 0 ==> Failure(Cfg(), keyType, depth + 1).None? && Failure(Cfg(), valueType, depth + 1).None?
            invariant forall j :: 0 <= j < i ==>
                        Conforms(Cfg(), keyType, depth + 1, puts[j].0) && Conforms(Cfg(), valueType, depth + 1, puts[j].1)
          {
            var key := GenerateAt(keyType, depth + 1);
            if key.Err? {
              return Err(key.error);
            }
            var value := GenerateAt(valueType, depth + 1);
            if value.Err? {
              return Err(value.error);
            }
            puts := puts + [(key.value, value.value)];
          }
        }
      }
      return Ok(MapValue(mapImpl, puts));
    }
  }
}
