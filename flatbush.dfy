/** The generic index Flatbush[TFloat] (flatbush.go): the state it keeps
    while boxes are added, and how Finish and Search hand that state to the
    tree builder and the tree query. */
module GenericIndex {
  import opened Boxes
  import opened PairSort
  import opened IndexBuild

  class Flatbush {
    /** TFloat, the coordinate type the index was created for. */
    const floatType: FloatType
    /** Children per node; the source documents a minimum of 2. */
    var nodeSize: int
    var boxes: seq<Box>
    var bounds: Box
    var hilbertValues: seq<U32>
    var levelBounds: seq<int>
    var numItems: int
    /** The number of boxes the last Reserve made room for. */
    var reserved: int

    /** While boxes are being added: each box carries its insertion position
        as its index, and bounds encloses every box. */
    ghost predicate Collecting()
      reads this
    {
      DenselyIndexed(boxes) && EnclosesAll(bounds, boxes)
    }

    /** Before Finish: no level bounds and no item count, so the tree query
        has no tree to walk. */
    ghost predicate Unfinished()
      reads this
    {
      levelBounds == [] && numItems == 0
    }

    /** NewFlatbush: node size 16, no boxes, and the empty union as bounds. */
    constructor (t: FloatType)
      ensures floatType == t && nodeSize == 16 && boxes == []
      ensures bounds == InvertedBox(MaxOf(t))
      ensures hilbertValues == [] && levelBounds == [] && numItems == 0 && reserved == 0
      ensures Collecting() && Unfinished()
    {
      floatType := t;
      nodeSize := 16;
      boxes := [];
      bounds := InvertedBox(MaxOf(t));
      hilbertValues := [];
      levelBounds := [];
      numItems := 0;
      reserved := 0;
    }

    /** Makes room for the tree over size items and drops every box added so
        far; node size and bounds stay as they were. */
    method Reserve(size: int)
      requires size >= 0 && (size <= 1 || nodeSize >= 2)
      modifies this
      ensures nodeSize == old(nodeSize) && bounds == old(bounds)
      ensures boxes == [] && reserved == NodeCount(size, nodeSize)
      ensures hilbertValues == old(hilbertValues) && levelBounds == old(levelBounds)
      ensures numItems == old(numItems)
      ensures Collecting()
      ensures old(Unfinished()) ==> Unfinished()
    {
      var numNodes := CountNodes(size, nodeSize);
      boxes := [];
      reserved := numNodes;
    }

    /** Appends a box whose index is its position, widens bounds to cover
        it, and returns that index. */
    method Add(minX: real, minY: real, maxX: real, maxY: real) returns (index: int)
      modifies this
      ensures index == old(|boxes|)
      ensures boxes == old(boxes) + [Box(minX, minY, maxX, maxY, index)]
      ensures bounds == Widen(old(bounds), minX, minY, maxX, maxY)
      ensures nodeSize == old(nodeSize) && reserved == old(reserved)
      ensures hilbertValues == old(hilbertValues) && levelBounds == old(levelBounds)
      ensures numItems == old(numItems)
      ensures old(Collecting()) ==> Collecting()
      ensures old(Unfinished()) ==> Unfinished()
    {
      index := |boxes|;
      boxes := boxes + [Box(minX, minY, maxX, maxY, index)];
      bounds := bounds.(minX := Min(bounds.minX, minX), minY := Min(bounds.minY, minY),
                        maxX := Max(bounds.maxX, maxX), maxY := Max(bounds.maxY, maxY));
    }

    /** Records how many boxes were added, then stores what the tree builder
        (finishIndexBuild) makes of the node size, the boxes and the bounds. */
    method Finish(build: Builder)
      modifies this
      ensures numItems == old(|boxes|)
      ensures Built(nodeSize, levelBounds, hilbertValues, boxes)
              == build(old(nodeSize), old(boxes), old(bounds))
      ensures bounds == old(bounds) && reserved == old(reserved)
    {
      numItems := |boxes|;
      var b := build(nodeSize, boxes, bounds);
      nodeSize, levelBounds, hilbertValues, boxes := b.nodeSize, b.levelBounds, b.hilbertValues, b.boxes;
    }

    /** The boxes overlapping the query box, appended to results by the tree
        query (searchInTree) over the built state. */
    function SearchFast(minX: real, minY: real, maxX: real, maxY: real, results: seq<int>,
                        searchInTree: TreeSearch): seq<int>
      reads this
    {
      searchInTree(nodeSize, numItems, levelBounds, boxes, minX, minY, maxX, maxY, results)
    }

    /** Search is SearchFast starting from an empty result list. */
    function Search(minX: real, minY: real, maxX: real, maxY: real, searchInTree: TreeSearch): seq<int>
      reads this
    {
      SearchFast(minX, minY, maxX, maxY, [], searchInTree)
    }
  }

  /** SearchFast reads only what Finish stores for the tree query: two
      indexes that agree on the node size, the item count, the level bounds
      and the boxes answer every query alike, whatever their bounds, Hilbert
      values and reserved room. */
  lemma SearchFastReadsTree(f: Flatbush, g: Flatbush, minX: real, minY: real, maxX: real, maxY: real,
                            results: seq<int>, searchInTree: TreeSearch)
    requires f.nodeSize == g.nodeSize && f.numItems == g.numItems
    requires f.levelBounds == g.levelBounds && f.boxes == g.boxes
    ensures f.SearchFast(minX, minY, maxX, maxY, results, searchInTree)
            == g.SearchFast(minX, minY, maxX, maxY, results, searchInTree)
  {
  }

  /** Search is SearchFast from an empty result list, so it too depends only
      on the tree state. */
  lemma SearchReadsTree(f: Flatbush, g: Flatbush, minX: real, minY: real, maxX: real, maxY: real,
                        searchInTree: TreeSearch)
    requires f.nodeSize == g.nodeSize && f.numItems == g.numItems
    requires f.levelBounds == g.levelBounds && f.boxes == g.boxes
    ensures f.Search(minX, minY, maxX, maxY, searchInTree)
            == g.SearchFast(minX, minY, maxX, maxY, [], searchInTree)
  {
  }

  /** Search before Finish hands the tree query no level bounds and no items,
      the case in which the tree query returns an empty result. */
  lemma SearchBeforeFinish(f: Flatbush, minX: real, minY: real, maxX: real, maxY: real,
                           searchInTree: TreeSearch)
    requires f.Unfinished()
    ensures f.Search(minX, minY, maxX, maxY, searchInTree)
            == searchInTree(f.nodeSize, 0, [], f.boxes, minX, minY, maxX, maxY, [])
  {
  }

  /** The insertion loop of the basic test: boxes are added one after
      another and each Add returns the next position, so an index that starts
      empty hands out 0, 1, 2, ... in insertion order, stores the boxes in
      that order, and ends with the union of all of them as bounds. */
  method AddInOrder(f: Flatbush, coords: seq<Box>) returns (ids: seq<int>)
    modifies f
    ensures |ids| == |coords|
    ensures forall k :: 0 <= k < |ids| ==> ids[k] == old(|f.boxes|) + k
    ensures f.boxes == old(f.boxes) + Stamped(coords, old(|f.boxes|))
    ensures f.bounds == UnionAll(old(f.bounds), coords)
    ensures old(f.Collecting()) ==> f.Collecting()
    ensures old(f.Unfinished()) ==> f.Unfinished()
  {
    ids := [];
    var i := 0;
    while i < |coords|
      invariant 0 <= i <= |coords| && |ids| == i
      invariant forall k :: 0 <= k < i ==> ids[k] == old(|f.boxes|) + k
      invariant f.boxes == old(f.boxes) + Stamped(coords[..i], old(|f.boxes|))
      invariant f.bounds == UnionAll(old(f.bounds), coords[..i])
      invariant old(f.Collecting()) ==> f.Collecting()
      invariant old(f.Unfinished()) ==> f.Unfinished()
    {
      var c := coords[i];
      var id := f.Add(c.minX, c.minY, c.maxX, c.maxY);
      assert coords[..i + 1][..i] == coords[..i];
      ids := ids + [id];
      i := i + 1;
    }
    assert coords[..i] == coords;
  }
}
