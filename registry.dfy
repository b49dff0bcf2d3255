/**
 * Building the generator's registry: every provider's `getGenerators()` map,
 * merged in provider order, with a class registered by two providers rejected.
 */
module Registries {
  import opened Wrappers
  import opened Types
  import PrimitiveProvider
  import StringProvider

  /** The merge of the tables, later entries overriding earlier ones; under disjointness there is nothing to override. */
  function UnionOf(tables: seq<Registry>): Registry
    decreases |tables|
  {
    if |tables| == 0 then map[] else UnionOf(tables[..|tables| - 1]) + tables[|tables| - 1]
  }

  /** No class is registered by two different providers. */
  ghost predicate PairwiseDisjoint(tables: seq<Registry>) {
    forall a, b :: 0 <= a < b < |tables| ==> tables[a].Keys !! tables[b].Keys
  }

  /** `cls` is registered by two different providers. */
  ghost predicate RegisteredTwice(tables: seq<Registry>, cls: ClassName) {
    exists a, b :: 0 <= a < b < |tables| && cls in tables[a] && cls in tables[b]
  }

  /**
   * `cls` is where the merge first collides: provider `b` registers it, the
   * providers before `b` are pairwise disjoint, and one of them registers it too.
   */
  ghost predicate FirstCollision(tables: seq<Registry>, cls: ClassName) {
    exists b :: 0 < b < |tables| && PairwiseDisjoint(tables[..b]) && cls in tables[b] && cls in UnionOf(tables[..b])
  }

  /** A class is in the merge exactly when some provider registers it. */
  lemma {:induction false} UnionKeys(tables: seq<Registry>, cls: ClassName)
    ensures cls in UnionOf(tables) <==> exists j :: 0 <= j < |tables| && cls in tables[j]
    decreases |tables|
  {
    if |tables| > 0 {
      var init := tables[..|tables| - 1];
      UnionKeys(init, cls);
      if cls in UnionOf(init) {
        var j :| 0 <= j < |init| && cls in init[j];
        assert tables[j] == init[j];
      }
      if exists j :: 0 <= j < |tables| && cls in tables[j] {
        var j :| 0 <= j < |tables| && cls in tables[j];
        if j < |init| {
          assert init[j] == tables[j];
        }
      }
    }
  }

  /** Without duplicates, the merged registry maps each class to the supplier of the one provider that registers it. */
  lemma {:induction false} UnionValue(tables: seq<Registry>, j: nat, cls: ClassName)
    requires PairwiseDisjoint(tables)
    requires j < |tables| && cls in tables[j]
    ensures cls in UnionOf(tables) && UnionOf(tables)[cls] == tables[j][cls]
    decreases |tables|
  {
    var init := tables[..|tables| - 1];
    var last := tables[|tables| - 1];
    if j == |tables| - 1 {
    } else {
      assert PairwiseDisjoint(init) by {
        forall a, b | 0 <= a < b < |init| ensures init[a].Keys !! init[b].Keys {
          assert init[a] == tables[a] && init[b] == tables[b];
        }
      }
      assert init[j] == tables[j];
      UnionValue(init, j, cls);
      assert cls !in last;
    }
  }

  /**
   * The constructor's merge loop. Providers are visited in order and each
   * provider's entries in an unspecified order; the first class found already
   * present aborts the merge with the class's name.
   */
  method MergeProviders(tables: seq<Registry>) returns (r: Result<Registry, Error>)
    ensures r.Ok? <==> PairwiseDisjoint(tables)
    ensures r.Ok? ==> r.value == UnionOf(tables)
    ensures r.Err? ==> r.error.DuplicateGenerator? && RegisteredTwice(tables, r.error.cls)
    ensures r.Err? ==> FirstCollision(tables, r.error.cls)
  {
    var result: Registry := map[];
    for i := 0 to |tables|
      invariant result == UnionOf(tables[..i])
      invariant PairwiseDisjoint(tables[..i])
    {
      var entries := tables[i];
      var earlier := result;
      var remaining := entries.Keys;
      while remaining != {}
        invariant remaining <= entries.Keys
        invariant result == earlier + map k | k in entries.Keys - remaining :: entries[k]
        invariant (entries.Keys - remaining) !! earlier.Keys
        decreases remaining
      {
        var cls :| cls in remaining;
        if cls in result {
          assert cls in earlier;
          UnionKeys(tables[..i], cls);
          var a :| 0 <= a < i && cls in tables[..i][a];
          assert RegisteredTwice(tables, cls);
          assert 0 < i && PairwiseDisjoint(tables[..i]) && cls in tables[i] && cls in UnionOf(tables[..i]);
          return Err(DuplicateGenerator(cls));
        }
        result := result[cls := entries[cls]];
        remaining := remaining - {cls};
      }
      assert result == earlier + entries;
      var prefix := tables[..i + 1];
      assert prefix[..i] == tables[..i];
      forall a, b | 0 <= a < b < |prefix|
        ensures prefix[a].Keys !! prefix[b].Keys
      {
        if b == i {
          forall k | k in tables[a]
            ensures k !in entries
          {
            UnionKeys(tables[..i], k);
            assert tables[..i][a] == tables[a];
          }
        } else {
          assert tables[..i][a] == tables[a] && tables[..i][b] == tables[b];
        }
      }
    }
    assert tables[..|tables|] == tables;
    return Ok(result);
  }

  /**
   * The two standard providers never collide: the primitive table's sixteen
   * keys do not include `java.lang.String`, the string table's only key.
   */
  lemma StandardProvidersMerge(primitives: PrimitiveProvider.PrimitiveGeneratorsProvider, strings: StringProvider.StringGeneratorsProvider)
    ensures PairwiseDisjoint([primitives.GetGenerators(), strings.GetGenerators()])
    ensures |UnionOf([primitives.GetGenerators(), strings.GetGenerators()])| == 17
  {
    PrimitiveProvider.SixteenKeysWithoutString(primitives);
    MergeOfTwo(primitives.GetGenerators(), strings.GetGenerators());
  }

  /** Two tables with no class in common merge without loss. */
  lemma MergeOfTwo(first: Registry, second: Registry)
    requires first.Keys !! second.Keys
    ensures PairwiseDisjoint([first, second])
    ensures |UnionOf([first, second])| == |first| + |second|
  {
    UnionOfTwo(first, second);
    DisjointKeysAdd(first, second);
  }

  /** Merging two tables in order is map union, the second overriding. */
  lemma UnionOfTwo(first: Registry, second: Registry)
    ensures UnionOf([first, second]) == first + second
  {
    var both := [first, second];
    assert both[..1] == [first];
    assert [first][..0] == [];
    assert UnionOf([first]) == map[] + first;
    assert map[] + first == first;
  }

  /** Tables with disjoint keys have as many entries together as apart. */
  lemma DisjointKeysAdd(first: Registry, second: Registry)
    requires first.Keys !! second.Keys
    ensures |first + second| == |first| + |second|
  {
    assert (first + second).Keys == first.Keys + second.Keys;
  }
}
