/**
 * When `generateValueOfType(clazz, depth)` fails, and with which error. In
 * this model failure does not depend on the random draws: constructor
 * outcomes are fixed, a supplier fails only for a non-positive string bound,
 * and a null appears only past the bound or from a supplier that returns it.
 * `Failure` is therefore a function of the class and the depth, defined by
 * the same recursion as `Conforms`; `None` means generation succeeds.
 */
module Failures {
  import opened Wrappers
  import opened Types
  import opened Dispatch
  import opened Suppliers
  import opened Conformance
  import PrimitiveProvider

  /** The error a result carries, if any. */
  function ErrorOf<T>(r: Result<T, Error>): (e: Option<Error>)
    ensures e.Some? <==> r.Err?
    ensures r.Err? ==> e.value == r.error
  {
    match r
    case Ok(_) => None
    case Err(error) => Some(error)
  }

  /** Generating an eligible `cls` at `depth` gives null: past the bound, or from a supplier registered to return null. */
  predicate ResultIsNull(c: Config, cls: ClassName, depth: nat) {
    depth > c.maxDepth || (cls in c.registry && c.registry[cls] == Constant(Null))
  }

  /** A slot, parameter or field of class `cls` refuses what is generated for it: null cannot be unboxed into a primitive. */
  predicate Refuses(c: Config, cls: ClassName, depth: nat) {
    cls in c.world && c.world[cls].isPrimitive && ResultIsNull(c, cls, depth)
  }

  /**
   * The error generating `cls` at `depth` ends in, or `None` when it
   * succeeds. An ineligible class fails at any depth; past the bound an
   * eligible one gives null; otherwise the branch decides.
   */
  ghost function Failure(c: Config, cls: ClassName, depth: nat): Option<Error>
    decreases Budget(c, depth), 5
  {
    if cls !in c.world || BranchOf(c, cls) == Rejected then Some(NotGeneratable)
    else if depth > c.maxDepth then None
    else
      var info := c.world[cls];
      match BranchOf(c, cls)
      case Rejected => Some(NotGeneratable)
      case RegistryBranch =>
        var s := c.registry[cls];
        if s.LowercaseString? && s.maxLength <= 0 then Some(NonPositiveBound(s.maxLength)) else None
      case EnumBranch => if info.enumConstants.value == 0 then Some(EmptyEnum(cls)) else None
      case ArrayBranch => SlotFailure(c, info.componentType.value, depth + 1)
      case CollectionBranch => None
      case MapBranch => None
      case ConstructorBranch => ConstructorsFailure(c, cls, depth)
  }

  /** Filling a slot of class `cls` with a value generated at `depth`: the generation's error, else a refused null. */
  ghost function SlotFailure(c: Config, cls: ClassName, depth: nat): Option<Error>
    decreases Budget(c, depth), 6
  {
    var f := Failure(c, cls, depth);
    if f.Some? then f
    else if Refuses(c, cls, depth) then Some(NullForPrimitive(cls))
    else None
  }

  /**
   * The constructor fallback: no constructors is an error; otherwise it
   * succeeds when some constructor does, and else fails with the last
   * constructor's error.
   */
  ghost function ConstructorsFailure(c: Config, cls: ClassName, depth: nat): Option<Error>
    requires cls in c.world && depth <= c.maxDepth
    decreases Budget(c, depth), 4
  {
    var n := |c.world[cls].constructors|;
    if n == 0 then Some(NoSuitableConstructor(cls))
    else if exists k :: 0 <= k < n && CtorFailure(c, cls, k, depth).None? then None
    else CtorFailure(c, cls, n - 1, depth)
  }

  /**
   * One attempt with constructor `k`: the first parameter whose generation
   * fails, else the first primitive parameter handed a null, else the
   * exception the constructor throws, else the first field that fails.
   */
  ghost function CtorFailure(c: Config, cls: ClassName, k: nat, depth: nat): Option<Error>
    requires cls in c.world && k < |c.world[cls].constructors| && depth <= c.maxDepth
    decreases Budget(c, depth), 3
  {
    var ctor := c.world[cls].constructors[k];
    var p := ParamsFailure(c, ctor.params, |ctor.params|, depth);
    if p.Some? then p
    else
      var refused := FirstRefused(c, ctor.params, |ctor.params|, depth + 1);
      if refused.Some? then Some(NullForPrimitive(refused.value))
      else if ctor.outcome.Throws? then Some(ConstructorThrew(cls, ctor.outcome.reason))
      else FieldsFailure(c, c.world[cls].fields, |c.world[cls].fields|, depth)
  }

  /** The error of the first of the first `n` parameters, left to right, whose generation at `depth + 1` fails. */
  ghost function ParamsFailure(c: Config, params: seq<ClassName>, n: nat, depth: nat): Option<Error>
    requires depth <= c.maxDepth && n <= |params|
    decreases Budget(c, depth), 2, n
  {
    if n == 0 then None
    else
      var prior := ParamsFailure(c, params, n - 1, depth);
      if prior.Some? then prior else Failure(c, params[n - 1], depth + 1)
  }

  /** The first of the first `n` parameter classes, left to right, that refuses the value generated for it at `depth`. */
  function FirstRefused(c: Config, params: seq<ClassName>, n: nat, depth: nat): Option<ClassName>
    requires n <= |params|
    decreases n
  {
    if n == 0 then None
    else
      var prior := FirstRefused(c, params, n - 1, depth);
      if prior.Some? then prior
      else if Refuses(c, params[n - 1], depth) then Some(params[n - 1])
      else None
  }

  /** The error of the first of the first `n` fields, in declaration order, that is assignable and fails. */
  ghost function FieldsFailure(c: Config, fields: seq<Field>, n: nat, depth: nat): Option<Error>
    requires depth <= c.maxDepth && n <= |fields|
    decreases Budget(c, depth), 2, n
  {
    if n == 0 then None
    else
      var prior := FieldsFailure(c, fields, n - 1, depth);
      if prior.Some? then prior
      else if Assignable(fields[n - 1]) then FieldFailure(c, fields[n - 1], depth)
      else None
  }

  /** The value for one assignable field of an instance generated at `depth`: the same switch as `FieldConforms`. */
  ghost function FieldFailure(c: Config, f: Field, depth: nat): Option<Error>
    requires depth <= c.maxDepth
    decreases Budget(c, depth), 1
  {
    if f.cls !in c.world then Some(NotGeneratable)
    else if c.world[f.cls].collectionKind.Some? then CollectionFieldFailure(c, f, depth)
    else if c.world[f.cls].mapKind.Some? then MapFieldFailure(c, f, depth)
    else SlotFailure(c, f.cls, depth + 1)
  }

  /** A `Collection` field fails only when its element class, generated at `depth + 1`, does. */
  ghost function CollectionFieldFailure(c: Config, f: Field, depth: nat): Option<Error>
    requires depth <= c.maxDepth
    decreases Budget(c, depth), 0
  {
    match SingleClassArgument(f.genericType)
    case None => None
    case Some(element) => Failure(c, element, depth + 1)
  }

  /** A `Map` field fails when its key class, or else its value class, generated at `depth + 1`, does. */
  ghost function MapFieldFailure(c: Config, f: Field, depth: nat): Option<Error>
    requires depth <= c.maxDepth
    decreases Budget(c, depth), 0
  {
    match TwoClassArguments(f.genericType)
    case None => None
    case Some((key, value)) =>
      var k := Failure(c, key, depth + 1);
      if k.Some? then k else Failure(c, value, depth + 1)
  }

  // ---------------------------------------------------------------------
  // Consequences of the specification
  // ---------------------------------------------------------------------

  /** A generated value is null exactly when the class's result is null by `ResultIsNull`. */
  lemma NullIffResultIsNull(c: Config, cls: ClassName, depth: nat, v: Value)
    requires Conforms(c, cls, depth, v)
    ensures v == Null <==> ResultIsNull(c, cls, depth)
  {
    if depth <= c.maxDepth && BranchOf(c, cls) == RegistryBranch {
      var s := c.registry[cls];
      if s.PrimitiveDraw? {
        assert PrimitiveProvider.InRange(s.primitive, v);
      }
    }
  }

  /** Reflection accepts a generated value for its slot exactly when the slot does not refuse it. */
  lemma StorableIffNotRefused(c: Config, cls: ClassName, depth: nat, v: Value)
    requires Conforms(c, cls, depth, v)
    ensures Storable(c.world, cls, v) <==> !Refuses(c, cls, depth)
  {
    NullIffResultIsNull(c, cls, depth, v);
  }

  /** Once the first `n` parameters fail, the whole list fails with the same error. */
  lemma {:induction false} ParamsFailurePrefix(c: Config, params: seq<ClassName>, n: nat, m: nat, depth: nat)
    requires depth <= c.maxDepth && n <= m <= |params|
    requires ParamsFailure(c, params, n, depth).Some?
    ensures ParamsFailure(c, params, m, depth) == ParamsFailure(c, params, n, depth)
    decreases m - n
  {
    if n < m {
      ParamsFailurePrefix(c, params, n, m - 1, depth);
    }
  }

  /** Once the first `n` parameters include a refusing one, the whole list has the same first refusal. */
  lemma {:induction false} FirstRefusedPrefix(c: Config, params: seq<ClassName>, n: nat, m: nat, depth: nat)
    requires n <= m <= |params|
    requires FirstRefused(c, params, n, depth).Some?
    ensures FirstRefused(c, params, m, depth) == FirstRefused(c, params, n, depth)
    decreases m - n
  {
    if n < m {
      FirstRefusedPrefix(c, params, n, m - 1, depth);
    }
  }

  /** Once the first `n` fields fail, the whole list fails with the same error. */
  lemma {:induction false} FieldsFailurePrefix(c: Config, fields: seq<Field>, n: nat, m: nat, depth: nat)
    requires depth <= c.maxDepth && n <= m <= |fields|
    requires FieldsFailure(c, fields, n, depth).Some?
    ensures FieldsFailure(c, fields, m, depth) == FieldsFailure(c, fields, n, depth)
    decreases m - n
  {
    if n < m {
      FieldsFailurePrefix(c, fields, n, m - 1, depth);
    }
  }

  /** The first-refusal search finds a refusing parameter exactly when there is one, and it finds the leftmost. */
  lemma {:induction false} FirstRefusedFinds(c: Config, params: seq<ClassName>, n: nat, depth: nat)
    requires n <= |params|
    ensures FirstRefused(c, params, n, depth).None? <==> forall i :: 0 <= i < n ==> !Refuses(c, params[i], depth)
    ensures FirstRefused(c, params, n, depth).Some? ==>
              exists i :: 0 <= i < n && params[i] == FirstRefused(c, params, n, depth).value
                          && Refuses(c, params[i], depth)
                          && forall j :: 0 <= j < i ==> !Refuses(c, params[j], depth)
    decreases n
  {
    if n > 0 {
      FirstRefusedFinds(c, params, n - 1, depth);
    }
  }

  // ---------------------------------------------------------------------
  // The two specifications agree: what fails has no possible result
  // ---------------------------------------------------------------------

  /** When generating `cls` at `depth` fails, no value conforms: a generation that fails never had a result to give. */
  lemma {:induction false} FailedHasNoValue(c: Config, cls: ClassName, depth: nat, v: Value)
    requires Failure(c, cls, depth).Some?
    ensures !Conforms(c, cls, depth, v)
    decreases Budget(c, depth), 5
  {
    if cls in c.world && BranchOf(c, cls) != Rejected && depth <= c.maxDepth && Conforms(c, cls, depth, v) {
      var info := c.world[cls];
      if BranchOf(c, cls) == ArrayBranch {
        SlotFailedHasNoValue(c, info.componentType.value, depth + 1, v.elements[0]);
        assert false;
      } else if BranchOf(c, cls) == ConstructorBranch {
        assert InstanceConforms(c, cls, depth, v);
        var k := v.constructorIndex;
        assert CtorFailure(c, cls, k, depth).Some?;
        CtorFailedHasNoInstance(c, cls, k, depth, v.arguments, v.fields);
        assert false;
      }
    }
  }

  /** When filling a slot fails, no value both conforms and is accepted by the slot. */
  lemma {:induction false} SlotFailedHasNoValue(c: Config, cls: ClassName, depth: nat, v: Value)
    requires SlotFailure(c, cls, depth).Some?
    ensures !(Conforms(c, cls, depth, v) && Storable(c.world, cls, v))
    decreases Budget(c, depth), 6
  {
    if Failure(c, cls, depth).Some? {
      FailedHasNoValue(c, cls, depth, v);
    } else if Conforms(c, cls, depth, v) {
      StorableIffNotRefused(c, cls, depth, v);
    }
  }

  /** When an attempt with constructor `k` fails, no arguments and field values make up an instance built by it. */
  lemma {:induction false} CtorFailedHasNoInstance(c: Config, cls: ClassName, k: nat, depth: nat, args: seq<Value>, values: map<string, Value>)
    requires cls in c.world && k < |c.world[cls].constructors| && depth <= c.maxDepth
    requires CtorFailure(c, cls, k, depth).Some?
    ensures !(&& ConstructorArgumentsConform(c, c.world[cls].constructors[k], depth, args)
              && FieldsConform(c, c.world[cls].fields, depth, values))
    decreases Budget(c, depth), 3
  {
    var ctor := c.world[cls].constructors[k];
    var fields := c.world[cls].fields;
    if ConstructorArgumentsConform(c, ctor, depth, args) && FieldsConform(c, fields, depth, values) {
      if ParamsFailure(c, ctor.params, |ctor.params|, depth).Some? {
        ParamsFailedHasNoArguments(c, ctor.params, |ctor.params|, depth, args);
        assert false;
      } else if FirstRefused(c, ctor.params, |ctor.params|, depth + 1).Some? {
        FirstRefusedFinds(c, ctor.params, |ctor.params|, depth + 1);
        var i :| 0 <= i < |ctor.params| && Refuses(c, ctor.params[i], depth + 1);
        StorableIffNotRefused(c, ctor.params[i], depth + 1, args[i]);
        assert false;
      } else if ctor.outcome.Throws? {
        assert false;
      } else {
        FieldsFailedHasNoValues(c, fields, |fields|, depth, values);
        assert false;
      }
    }
  }

  /** When one of the first `n` parameters fails, no arguments conform to all of them. */
  lemma {:induction false} ParamsFailedHasNoArguments(c: Config, params: seq<ClassName>, n: nat, depth: nat, args: seq<Value>)
    requires depth <= c.maxDepth && n <= |params| && n <= |args|
    requires ParamsFailure(c, params, n, depth).Some?
    ensures !(forall i :: 0 <= i < n ==> Conforms(c, params[i], depth + 1, args[i]))
    decreases Budget(c, depth), 2, n
  {
    if ParamsFailure(c, params, n - 1, depth).Some? {
      ParamsFailedHasNoArguments(c, params, n - 1, depth, args);
    } else {
      FailedHasNoValue(c, params[n - 1], depth + 1, args[n - 1]);
    }
  }

  /** When one of the first `n` fields fails, no field values conform to all the assignable ones. */
  lemma {:induction false} FieldsFailedHasNoValues(c: Config, fields: seq<Field>, n: nat, depth: nat, values: map<string, Value>)
    requires depth <= c.maxDepth && n <= |fields|
    requires FieldsFailure(c, fields, n, depth).Some?
    ensures !(forall i :: 0 <= i < n && Assignable(fields[i]) ==>
                fields[i].name in values && FieldConforms(c, fields[i], depth, values[fields[i].name]))
    decreases Budget(c, depth), 2, n
  {
    if FieldsFailure(c, fields, n - 1, depth).Some? {
      FieldsFailedHasNoValues(c, fields, n - 1, depth, values);
    } else if fields[n - 1].name in values {
      FieldFailedHasNoValue(c, fields[n - 1], depth, values[fields[n - 1].name]);
    }
  }

  /** When a field's value cannot be generated, no value conforms to the field's rule. */
  lemma {:induction false} FieldFailedHasNoValue(c: Config, f: Field, depth: nat, v: Value)
    requires depth <= c.maxDepth && FieldFailure(c, f, depth).Some?
    ensures !FieldConforms(c, f, depth, v)
    decreases Budget(c, depth), 1
  {
    if f.cls in c.world && FieldConforms(c, f, depth, v) {
      var info := c.world[f.cls];
      if info.collectionKind.Some? {
        var element := SingleClassArgument(f.genericType).value;
        FailedHasNoValue(c, element, depth + 1, v.added[0]);
        assert false;
      } else if info.mapKind.Some? {
        var (key, value) := TwoClassArguments(f.genericType).value;
        if Failure(c, key, depth + 1).Some? {
          FailedHasNoValue(c, key, depth + 1, v.puts[0].0);
        } else {
          FailedHasNoValue(c, value, depth + 1, v.puts[0].1);
        }
        assert false;
      } else {
        SlotFailedHasNoValue(c, f.cls, depth + 1, v);
        assert false;
      }
    }
  }
}
