/**
 * The classification that `generateValueOfType` performs on a class before it
 * does any work: the eligibility test and the fixed priority of the branches,
 * plus the two empty-container factories.
 */
module Dispatch {
  import opened Wrappers
  import opened Types

  /** The branch of `generateValueOfType` a class takes; `Rejected` is the eligibility failure. */
  datatype Branch =
    | Rejected
    | RegistryBranch
    | EnumBranch
    | ArrayBranch
    | CollectionBranch
    | MapBranch
    | ConstructorBranch

  /** Position of a branch's test in the chain; earlier tests win. */
  function Rank(b: Branch): nat {
    match b
    case Rejected => 6
    case RegistryBranch => 0
    case EnumBranch => 1
    case ArrayBranch => 2
    case CollectionBranch => 3
    case MapBranch => 4
    case ConstructorBranch => 5
  }

  /** The test guarding branch `b` holds for the class. */
  predicate Matches(b: Branch, registered: bool, info: ClassInfo) {
    match b
    case Rejected => false
    case RegistryBranch => registered
    case EnumBranch => info.enumConstants.Some?
    case ArrayBranch => info.componentType.Some?
    case CollectionBranch => info.collectionKind.Some?
    case MapBranch => info.mapKind.Some?
    case ConstructorBranch => info.isAnnotated
  }

  /** `canBeGenerated`: registered, an enum, an array, a `Collection`, a `Map` or annotated with `@Generatable`. */
  predicate CanBeGenerated(registered: bool, info: ClassInfo): (eligible: bool)
    ensures eligible <==> exists b :: Matches(b, registered, info)
  {
    var eligible :=
      || registered
      || info.enumConstants.Some?
      || info.componentType.Some?
      || info.collectionKind.Some?
      || info.mapKind.Some?
      || info.isAnnotated;
    assert eligible ==> Matches(BranchFor(registered, info), registered, info);
    eligible
  }

  /**
   * The branch taken: the first test of the chain that the class passes. A
   * class that passes none is rejected; one that reaches the constructor
   * fallback is therefore annotated.
   */
  function BranchFor(registered: bool, info: ClassInfo): (b: Branch)
    ensures b != Rejected ==> Matches(b, registered, info)
    ensures forall e :: Rank(e) < Rank(b) ==> !Matches(e, registered, info)
  {
    if registered then RegistryBranch
    else if info.enumConstants.Some? then EnumBranch
    else if info.componentType.Some? then ArrayBranch
    else if info.collectionKind.Some? then CollectionBranch
    else if info.mapKind.Some? then MapBranch
    else if info.isAnnotated then ConstructorBranch
    else Rejected
  }

  /** The eligibility check and the chain agree: exactly the eligible classes reach a branch. */
  lemma EligibleIffDispatched(registered: bool, info: ClassInfo)
    ensures CanBeGenerated(registered, info) <==> BranchFor(registered, info) != Rejected
  {
    var b := BranchFor(registered, info);
    if b == Rejected {
      assert !Matches(RegistryBranch, registered, info) && !Matches(EnumBranch, registered, info);
      assert !Matches(ArrayBranch, registered, info) && !Matches(CollectionBranch, registered, info);
      assert !Matches(MapBranch, registered, info) && !Matches(ConstructorBranch, registered, info);
    }
  }

  /** Registration shadows every other trait of a class: a registered enum, array or container is supplied, not built. */
  lemma RegistryFirst(info: ClassInfo)
    ensures BranchFor(true, info) == RegistryBranch
  {}

  /** `generateCollectionFromClass`: Set gives HashSet (checked before Queue), Queue gives LinkedList, anything else ArrayList. */
  function CollectionFromClass(kind: CollectionKind): (impl: CollectionImpl)
    ensures impl == HashSet <==> kind.isSet
    ensures impl == LinkedList <==> !kind.isSet && kind.isQueue
    ensures impl == ArrayList <==> !kind.isSet && !kind.isQueue
  {
    if kind.isSet then HashSet
    else if kind.isQueue then LinkedList
    else ArrayList
  }

  /** `generateMapFromClass`: SortedMap gives TreeMap, any other map HashMap. */
  function MapFromClass(kind: MapKind): (impl: MapImpl)
    ensures impl == TreeMap <==> kind.isSorted
    ensures impl == HashMap <==> !kind.isSorted
  {
    if kind.isSorted then TreeMap else HashMap
  }
}
