/** The texture-map and attribute-map lists of a context (`_CTMfloatmap`
    chains), held as sequences in list order. */
module CtmMaps {
  import opened CtmTypes

  /** One list entry: an optional name and the float array of the map. */
  datatype FloatMap = FloatMap(name: Option<string>, values: array?<real>)

  /** The walk in ctmGetFloatArray: start at the head with counter `first` and
      step along the list until the counter reaches `property` or the list ends.
      The entry found is the one at position property - first, if there is one. */
  method FindMap(maps: seq<FloatMap>, first: int, property: int) returns (found: Option<FloatMap>)
    requires first <= property
    ensures found.Some? <==> property - first < |maps|
    ensures found.Some? ==> found.value == maps[property - first]
  {
    var k := 0;          // position of `map` in the list; |maps| stands for null
    var i := first;
    while k < |maps| && i != property
      invariant 0 <= k <= |maps|
      invariant i == first + k <= property
      decreases |maps| - k
    {
      k := k + 1;
      i := i + 1;
    }
    found := if k < |maps| then Some(maps[k]) else None;
  }

  /** The value arrays of the entries, which an Import-mode context owns. */
  ghost function ValuesOf(maps: seq<FloatMap>): set<object>
  {
    if maps == [] then {}
    else
      var last := maps[|maps| - 1];
      ValuesOf(maps[..|maps| - 1]) + (if last.values != null then {last.values as object} else {})
  }

  lemma {:induction false} ValuesOfMembers(maps: seq<FloatMap>, o: object)
    ensures o in ValuesOf(maps) <==> exists k :: 0 <= k < |maps| && maps[k].values == o
  {
    if maps != [] {
      var init := maps[..|maps| - 1];
      ValuesOfMembers(init, o);
      if o in ValuesOf(init) {
        var k :| 0 <= k < |init| && init[k].values == o;
        assert maps[k] == init[k];
      }
      if exists k :: 0 <= k < |maps| && maps[k].values == o {
        var k :| 0 <= k < |maps| && maps[k].values == o;
        if k < |maps| - 1 {
          assert init[k] == maps[k];
        }
      }
    }
  }

  /** A run of the loop of _ctmFreeMapList: the position of the node `map`
      points to (|maps| standing for the null pointer that ends the loop), and
      how many times each node has been freed. */
  datatype Run = Run(node: nat, frees: multiset<nat>)

  // _ctmFreeMapList as written: the loop body stores map->mNext in nextMap and
  // frees the node, but never assigns nextMap to map.

  /** The loop as written after n passes from the head. */
  function AsWrittenRun(maps: seq<FloatMap>, n: nat): Run
  {
    if n == 0 then Run(0, multiset{})
    else
      var r := AsWrittenRun(maps, n - 1);
      if r.node < |maps| then Run(r.node, r.frees + multiset{r.node}) else r
  }

  /** On a non-empty list the loop as written never reaches null: after n
      passes `map` is still the head node, and the head has been freed n times,
      so from the second pass on it reads and frees a node already freed. */
  lemma {:induction false} AsWrittenNeverExits(maps: seq<FloatMap>, n: nat)
    requires |maps| > 0
    ensures AsWrittenRun(maps, n).node == 0
    ensures AsWrittenRun(maps, n).frees == multiset{}[0 := n]
  {
    if n > 0 {
      AsWrittenNeverExits(maps, n - 1);
    }
  }

  /** The intended loop, which sets map = nextMap at the end of each pass. */
  function IntendedRun(maps: seq<FloatMap>, n: nat): Run
  {
    if n == 0 then Run(0, multiset{})
    else
      var r := IntendedRun(maps, n - 1);
      if r.node < |maps| then Run(r.node + 1, r.frees + multiset{r.node}) else r
  }

  /** The intended loop has visited min(n, |maps|) nodes after n passes, has
      freed each of them exactly once and no other, and so reaches null after
      |maps| passes. */
  lemma {:induction false} IntendedVisitsEach(maps: seq<FloatMap>, n: nat)
    ensures IntendedRun(maps, n).node == if n <= |maps| then n else |maps|
    ensures forall i: nat :: IntendedRun(maps, n).frees[i] == if i < IntendedRun(maps, n).node then 1 else 0
  {
    if n > 0 {
      IntendedVisitsEach(maps, n - 1);
    }
  }
}
