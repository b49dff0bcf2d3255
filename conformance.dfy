/**
 * What `generateValueOfType(clazz, depth)` may return, stated without the
 * random draws: a ghost predicate over the class graph that the generator's
 * methods are proved against.
 */
module Conformance {
  import opened Wrappers
  import opened Types
  import opened Dispatch
  import opened Suppliers

  /** The generator's fixed configuration: the loaded classes, the merged registry and the depth bound. */
  datatype Config = Config(world: World, registry: Registry, maxDepth: int)

  /** Recursion steps left before the depth bound cuts generation off; every recursive call spends one. */
  function Budget(c: Config, depth: nat): nat {
    if depth > c.maxDepth then 0 else c.maxDepth + 1 - depth
  }

  /** The branch `generateValueOfType` takes for a loaded class. */
  function BranchOf(c: Config, cls: ClassName): Branch
    requires cls in c.world
  {
    BranchFor(cls in c.registry, c.world[cls])
  }

  /** Reflection accepts `v` for a slot, parameter or field of class `cls`: null cannot be unboxed into a primitive. */
  predicate Storable(world: World, cls: ClassName, v: Value) {
    !(cls in world && world[cls].isPrimitive && v == Null)
  }

  /** Static and final fields are skipped; every other declared field is assigned. */
  predicate Assignable(f: Field) {
    !f.isStatic && !f.isFinal
  }

  /** The names of the assignable fields among `fields`. */
  function AssignableNames(fields: seq<Field>): set<string>
    decreases |fields|
  {
    if |fields| == 0 then {}
    else
      var last := fields[|fields| - 1];
      AssignableNames(fields[..|fields| - 1]) + (if Assignable(last) then {last.name} else {})
  }

  /** The element class of a collection field, when its one type argument is a plain class. */
  function SingleClassArgument(g: GenericType): Option<ClassName> {
    if g.Parameterized? && |g.arguments| == 1 && g.arguments[0].ClassArgument?
    then Some(g.arguments[0].cls)
    else None
  }

  /** The key and value classes of a map field, when both of its two type arguments are plain classes. */
  function TwoClassArguments(g: GenericType): Option<(ClassName, ClassName)> {
    if g.Parameterized? && |g.arguments| == 2 && g.arguments[0].ClassArgument? && g.arguments[1].ClassArgument?
    then Some((g.arguments[0].cls, g.arguments[1].cls))
    else None
  }

  /**
   * `v` is a possible result of generating `cls` at `depth`. The class must
   * pass the eligibility test; past the bound the result is null; otherwise
   * the branch decides: a value the registered supplier yields, one of the
   * enum's constants, an array of 1 to 9 elements each generated at
   * `depth + 1`, an empty container of the factory's class, or an instance
   * built by one of the declared constructors.
   */
  ghost predicate Conforms(c: Config, cls: ClassName, depth: nat, v: Value)
    decreases Budget(c, depth), 3
  {
    && cls in c.world
    && BranchOf(c, cls) != Rejected
    && if depth > c.maxDepth then v == Null
       else
         var info := c.world[cls];
         match BranchOf(c, cls)
         case RegistryBranch => Yields(c.registry[cls], v)
         case EnumBranch => v.EnumConstant? && v.enumClass == cls && v.ordinal < info.enumConstants.value
         case ArrayBranch =>
           && v.ArrayValue? && v.arrayClass == cls
           && 1 <= |v.elements| <= 9
           && forall i :: 0 <= i < |v.elements| ==>
                Conforms(c, info.componentType.value, depth + 1, v.elements[i])
                && Storable(c.world, info.componentType.value, v.elements[i])
         case CollectionBranch => v == CollectionValue(CollectionFromClass(info.collectionKind.value), [])
         case MapBranch => v == MapValue(MapFromClass(info.mapKind.value), [])
         case ConstructorBranch => InstanceConforms(c, cls, depth, v)
  }

  /**
   * `v` is an instance of `cls` built by the constructor it names: that
   * constructor returned normally on arguments generated at `depth + 1`, and
   * afterwards each assignable field, and no other, was given a value.
   */
  ghost predicate InstanceConforms(c: Config, cls: ClassName, depth: nat, v: Value)
    decreases Budget(c, depth), 2
  {
    && cls in c.world && depth <= c.maxDepth
    && v.Instance? && v.cls == cls
    && var info := c.world[cls];
       && v.constructorIndex < |info.constructors|
       && ConstructorArgumentsConform(c, info.constructors[v.constructorIndex], depth, v.arguments)
       && FieldsConform(c, info.fields, depth, v.fields)
  }

  /** The constructor returns, and its arguments are generated left to right at `depth + 1` and accepted by reflection. */
  ghost predicate ConstructorArgumentsConform(c: Config, ctor: Constructor, depth: nat, arguments: seq<Value>)
    requires depth <= c.maxDepth
    decreases Budget(c, depth), 1
  {
    && ctor.outcome == Returns
    && |arguments| == |ctor.params|
    && forall i :: 0 <= i < |arguments| ==>
         Conforms(c, ctor.params[i], depth + 1, arguments[i]) && Storable(c.world, ctor.params[i], arguments[i])
  }

  /** Exactly the assignable fields are set, each to a value its own rule allows. */
  ghost predicate FieldsConform(c: Config, fields: seq<Field>, depth: nat, values: map<string, Value>)
    requires depth <= c.maxDepth
    decreases Budget(c, depth), 1
  {
    && values.Keys == AssignableNames(fields)
    && forall i :: 0 <= i < |fields| && Assignable(fields[i]) ==>
         fields[i].name in values && FieldConforms(c, fields[i], depth, values[fields[i].name])
  }

  /** The first `n` fields are handled: exactly the assignable ones among them are set, each to a value its rule allows. */
  ghost predicate FieldsConformUpTo(c: Config, fields: seq<Field>, n: nat, depth: nat, values: map<string, Value>)
    requires depth <= c.maxDepth && n <= |fields|
  {
    && values.Keys == AssignableNames(fields[..n])
    && forall i :: 0 <= i < n && Assignable(fields[i]) ==>
         fields[i].name in values && FieldConforms(c, fields[i], depth, values[fields[i].name])
  }

  /** Handling one more field, by skipping it or by assigning it a conforming value, extends the handled prefix. */
  lemma FieldsConformStep(c: Config, fields: seq<Field>, n: nat, depth: nat, values: map<string, Value>, v: Value)
    requires depth <= c.maxDepth && n < |fields|
    requires forall a, b :: 0 <= a < b < |fields| ==> fields[a].name != fields[b].name
    requires FieldsConformUpTo(c, fields, n, depth, values)
    requires Assignable(fields[n]) ==> FieldConforms(c, fields[n], depth, v)
    ensures FieldsConformUpTo(c, fields, n + 1, depth, if Assignable(fields[n]) then values[fields[n].name := v] else values)
  {
    assert fields[..n + 1][..n] == fields[..n];
  }

  /** Handling every field is what `FieldsConform` asks. */
  lemma FieldsConformAll(c: Config, fields: seq<Field>, depth: nat, values: map<string, Value>)
    requires depth <= c.maxDepth
    requires FieldsConformUpTo(c, fields, |fields|, depth, values)
    ensures FieldsConform(c, fields, depth, values)
  {
    assert fields[..|fields|] == fields;
  }

  /**
   * The value assigned to a field of an instance generated at `depth`. A
   * `Collection` field gets the factory's container, filled with 1 to 9
   * elements generated at `depth + 1` when its one type argument is a plain
   * class and empty otherwise; a `Map` field likewise with key and value
   * classes; any other field a value generated at `depth + 1`.
   */
  ghost predicate FieldConforms(c: Config, f: Field, depth: nat, v: Value)
    requires depth <= c.maxDepth
    decreases Budget(c, depth), 0
  {
    && f.cls in c.world
    && var info := c.world[f.cls];
       if info.collectionKind.Some? then
         && v.CollectionValue? && v.collectionImpl == CollectionFromClass(info.collectionKind.value)
         && match SingleClassArgument(f.genericType)
            case None => v.added == []
            case Some(element) =>
              && 1 <= |v.added| <= 9
              && forall i :: 0 <= i < |v.added| ==> Conforms(c, element, depth + 1, v.added[i])
       else if info.mapKind.Some? then
         && v.MapValue? && v.mapImpl == MapFromClass(info.mapKind.value)
         && match TwoClassArguments(f.genericType)
            case None => v.puts == []
            case Some((key, value)) =>
              && 1 <= |v.puts| <= 9
              && forall i :: 0 <= i < |v.puts| ==>
                   Conforms(c, key, depth + 1, v.puts[i].0) && Conforms(c, value, depth + 1, v.puts[i].1)
       else
         Conforms(c, f.cls, depth + 1, v) && Storable(c.world, f.cls, v)
  }

  // ---------------------------------------------------------------------
  // Consequences of the specification
  // ---------------------------------------------------------------------

  /** Past the bound the only possible result is null, whatever the class, including a primitive one. */
  lemma PastBoundIsNull(c: Config, cls: ClassName, depth: nat, v: Value)
    requires Conforms(c, cls, depth, v) && depth > c.maxDepth
    ensures v == Null
  {}

  /** Ineligible classes have no possible result at any depth. */
  lemma RejectedHasNoValue(c: Config, cls: ClassName, depth: nat, v: Value)
    requires cls in c.world && BranchOf(c, cls) == Rejected
    ensures !Conforms(c, cls, depth, v)
  {}

  /** Within the bound an enum without constants has no possible result, so generating it can only fail. */
  lemma EmptyEnumHasNoValue(c: Config, cls: ClassName, depth: nat, v: Value)
    requires cls in c.world && BranchOf(c, cls) == EnumBranch && depth <= c.maxDepth
    requires c.world[cls].enumConstants == Some(0)
    ensures !Conforms(c, cls, depth, v)
  {}

  /** Within the bound a class reaching the constructor fallback with no constructors has no possible result. */
  lemma NoConstructorHasNoValue(c: Config, cls: ClassName, depth: nat, v: Value)
    requires cls in c.world && BranchOf(c, cls) == ConstructorBranch && depth <= c.maxDepth
    requires |c.world[cls].constructors| == 0
    ensures !Conforms(c, cls, depth, v)
  {}

  /** A directly requested collection or map is empty, of the class the factory picks. */
  lemma DirectContainerIsEmpty(c: Config, cls: ClassName, depth: nat, v: Value)
    requires Conforms(c, cls, depth, v) && depth <= c.maxDepth
    requires BranchOf(c, cls) in {CollectionBranch, MapBranch}
    ensures v.CollectionValue? ==> v.added == [] && v.collectionImpl == CollectionFromClass(c.world[cls].collectionKind.value)
    ensures v.MapValue? ==> v.puts == [] && v.mapImpl == MapFromClass(c.world[cls].mapKind.value)
    ensures v.CollectionValue? || v.MapValue?
  {}

  /** The element reached from `v` by indexing nested arrays along `path`, if every step lands inside an array. */
  function ElementAt(v: Value, path: seq<nat>): Option<Value>
    decreases |path|
  {
    if |path| == 0 then Some(v)
    else if v.ArrayValue? && path[0] < |v.elements| then ElementAt(v.elements[path[0]], path[1..])
    else None
  }

  /** The class `n` array dimensions below `cls`: the component of the component, and so on. */
  function ComponentAt(world: World, cls: ClassName, n: nat): Option<ClassName>
    decreases n
  {
    if n == 0 then Some(cls)
    else if cls in world && world[cls].componentType.Some? then ComponentAt(world, world[cls].componentType.value, n - 1)
    else None
  }

  /** The first `n` classes down the component chain of `cls` are all generated by the array branch. */
  ghost predicate ArrayChain(c: Config, cls: ClassName, n: nat)
    decreases n
  {
    n == 0 ||
    (cls in c.world && BranchOf(c, cls) == ArrayBranch && ArrayChain(c, c.world[cls].componentType.value, n - 1))
  }

  /**
   * Each array dimension consumes one depth unit: an element reached through
   * `|path|` nested arrays is a value of the class `|path|` dimensions down,
   * generated at `depth + |path|`, so it is null once that passes the bound.
   */
  lemma {:induction false} NestedElementConforms(c: Config, cls: ClassName, depth: nat, v: Value, path: seq<nat>, e: Value)
    requires Conforms(c, cls, depth, v) && ArrayChain(c, cls, |path|)
    requires ElementAt(v, path) == Some(e)
    ensures ComponentAt(c.world, cls, |path|).Some?
    ensures Conforms(c, ComponentAt(c.world, cls, |path|).value, depth + |path|, e)
    ensures depth + |path| > c.maxDepth ==> e == Null
    decreases |path|
  {
    if |path| > 0 {
      var component := c.world[cls].componentType.value;
      NestedElementConforms(c, component, depth + 1, v.elements[path[0]], path[1..], e);
      assert ComponentAt(c.world, cls, |path|) == ComponentAt(c.world, component, |path[1..]|);
    }
    if depth + |path| > c.maxDepth {
      PastBoundIsNull(c, ComponentAt(c.world, cls, |path|).value, depth + |path|, e);
    }
  }

  /** A slot, parameter or non-container field of a primitive class never holds null in a generated value. */
  lemma PrimitiveSlotsHoldNoNull(c: Config, cls: ClassName, depth: nat, v: Value, i: nat)
    requires Conforms(c, cls, depth, v) && depth <= c.maxDepth && BranchOf(c, cls) == ArrayBranch
    requires c.world[cls].componentType.value in c.world && c.world[c.world[cls].componentType.value].isPrimitive
    requires i < |v.elements|
    ensures v.elements[i] != Null
  {
    assert Storable(c.world, c.world[cls].componentType.value, v.elements[i]);
  }

  /** A name is an assignable field's name exactly when some assignable field carries it. */
  lemma {:induction false} AssignableNamesMembers(fields: seq<Field>, name: string)
    ensures name in AssignableNames(fields) <==>
            exists i :: 0 <= i < |fields| && Assignable(fields[i]) && fields[i].name == name
    decreases |fields|
  {
    if |fields| > 0 {
      var init := fields[..|fields| - 1];
      AssignableNamesMembers(init, name);
      if name in AssignableNames(init) {
        var i :| 0 <= i < |init| && Assignable(init[i]) && init[i].name == name;
        assert fields[i] == init[i];
      }
      if exists i :: 0 <= i < |fields| && Assignable(fields[i]) && fields[i].name == name {
        var i :| 0 <= i < |fields| && Assignable(fields[i]) && fields[i].name == name;
        if i < |init| {
          assert init[i] == fields[i];
        }
      }
    }
  }

  /**
   * Static and final fields are left alone: with distinct field names, a
   * generated instance records a value for a declared field exactly when the
   * field is neither static nor final.
   */
  lemma FieldAssignedIffAssignable(c: Config, cls: ClassName, depth: nat, v: Value, i: nat)
    requires InstanceConforms(c, cls, depth, v)
    requires forall a, b :: 0 <= a < b < |c.world[cls].fields| ==> c.world[cls].fields[a].name != c.world[cls].fields[b].name
    requires i < |c.world[cls].fields|
    ensures c.world[cls].fields[i].name in v.fields <==> Assignable(c.world[cls].fields[i])
  {
    var fields := c.world[cls].fields;
    AssignableNamesMembers(fields, fields[i].name);
  }
}
