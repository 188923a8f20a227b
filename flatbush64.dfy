/** The float64 index Flatbush64 (flatbush64.go), the same state machine as
    the generic index with coordinates fixed to float64. */
module Index64 {
  import opened Boxes
  import opened PairSort
  import opened IndexBuild

  class Flatbush64 {
    /** Children per node; the source documents a minimum of 2. */
    var nodeSize: int
    var boxes: seq<Box>
    var bounds: Box
    var hilbertValues: seq<U32>
    var levelBounds: seq<int>
    var numItems: int
    /** The number of boxes the last Reserve made room for. */
    var reserved: int

    /** While boxes are being added: each box carries its insertion position
        as its index, and bounds encloses every box. */
    ghost predicate Collecting()
      reads this
    {
      DenselyIndexed(boxes) && EnclosesAll(bounds, boxes)
    }

    /** Before Finish: no level bounds and no item count, so the tree query
        has no tree to walk. */
    ghost predicate Unfinished()
      reads this
    {
      levelBounds == [] && numItems == 0
    }

    /** NewFlatbush64: node size 16, no boxes, and the empty float64 union as
        bounds. */
    constructor ()
      ensures nodeSize == 16 && boxes == []
      ensures bounds == InvertedBox(MaxFloat64)
      ensures hilbertValues == [] && levelBounds == [] && numItems == 0 && reserved == 0
      ensures Collecting() && Unfinished()
    {
      nodeSize := 16;
      boxes := [];
      bounds := InvertedBox(MaxFloat64);
      hilbertValues := [];
      levelBounds := [];
      numItems := 0;
      reserved := 0;
    }

    /** Makes room for the tree over size items and drops every box added so
        far; node size and bounds stay as they were. */
    method Reserve(size: int)
      requires size >= 0 && (size <= 1 || nodeSize >= 2)
      modifies this
      ensures nodeSize == old(nodeSize) && bounds == old(bounds)
      ensures boxes == [] && reserved == NodeCount(size, nodeSize)
      ensures hilbertValues == old(hilbertValues) && levelBounds == old(levelBounds)
      ensures numItems == old(numItems)
      ensures Collecting()
      ensures old(Unfinished()) ==> Unfinished()
    {
      var numNodes := CountNodes(size, nodeSize);
      boxes := [];
      reserved := numNodes;
    }

    /** Appends a box whose index is its position, widens bounds to cover
        it, and returns that index. */
    method Add(minX: real, minY: real, maxX: real, maxY: real) returns (index: int)
      modifies this
      ensures index == old(|boxes|)
      ensures boxes == old(boxes) + [Box(minX, minY, maxX, maxY, index)]
      ensures bounds == Widen(old(bounds), minX, minY, maxX, maxY)
      ensures nodeSize == old(nodeSize) && reserved == old(reserved)
      ensures hilbertValues == old(hilbertValues) && levelBounds == old(levelBounds)
      ensures numItems == old(numItems)
      ensures old(Collecting()) ==> Collecting()
      ensures old(Unfinished()) ==> Unfinished()
    {
      index := |boxes|;
      boxes := boxes + [Box(minX, minY, maxX, maxY, index)];
      bounds := bounds.(minX := Min(bounds.minX, minX), minY := Min(bounds.minY, minY),
                        maxX := Max(bounds.maxX, maxX), maxY := Max(bounds.maxY, maxY));
    }

    /** Records how many boxes were added, then stores what the tree builder
        (finishIndexBuild) makes of the node size, the boxes and the bounds. */
    method Finish(build: Builder)
      modifies this
      ensures numItems == old(|boxes|)
      ensures Built(nodeSize, levelBounds, hilbertValues, boxes)
              == build(old(nodeSize), old(boxes), old(bounds))
      ensures bounds == old(bounds) && reserved == old(reserved)
    {
      numItems := |boxes|;
      var b := build(nodeSize, boxes, bounds);
      nodeSize, levelBounds, hilbertValues, boxes := b.nodeSize, b.levelBounds, b.hilbertValues, b.boxes;
    }

    /** The boxes overlapping the query box, appended to results by the tree
        query (searchInTree) over the built state. */
    function SearchFast(minX: real, minY: real, maxX: real, maxY: real, results: seq<int>,
                        searchInTree: TreeSearch): seq<int>
      reads this
    {
      searchInTree(nodeSize, numItems, levelBounds, boxes, minX, minY, maxX, maxY, results)
    }

    /** Search is SearchFast starting from an empty result list. */
    function Search(minX: real, minY: real, maxX: real, maxY: real, searchInTree: TreeSearch): seq<int>
      reads this
    {
      SearchFast(minX, minY, maxX, maxY, [], searchInTree)
    }
  }

  /** SearchFast reads only what Finish stores for the tree query: two
      indexes that agree on the node size, the item count, the level bounds
      and the boxes answer every query alike, whatever their bounds, Hilbert
      values and reserved room. */
  lemma SearchFastReadsTree(f: Flatbush64, g: Flatbush64, minX: real, minY: real, maxX: real, maxY: real,
                            results: seq<int>, searchInTree: TreeSearch)
    requires f.nodeSize == g.nodeSize && f.numItems == g.numItems
    requires f.levelBounds == g.levelBounds && f.boxes == g.boxes
    ensures f.SearchFast(minX, minY, maxX, maxY, results, searchInTree)
            == g.SearchFast(minX, minY, maxX, maxY, results, searchInTree)
  {
  }

  /** Search is SearchFast from an empty result list, so it too depends only
      on the tree state. */
  lemma SearchReadsTree(f: Flatbush64, g: Flatbush64, minX: real, minY: real, maxX: real, maxY: real,
                        searchInTree: TreeSearch)
    requires f.nodeSize == g.nodeSize && f.numItems == g.numItems
    requires f.levelBounds == g.levelBounds && f.boxes == g.boxes
    ensures f.Search(minX, minY, maxX, maxY, searchInTree)
            == g.SearchFast(minX, minY, maxX, maxY, [], searchInTree)
  {
  }

  /** Search before Finish hands the tree query no level bounds and no items,
      the case in which the tree query returns an empty result. */
  lemma SearchBeforeFinish(f: Flatbush64, minX: real, minY: real, maxX: real, maxY: real,
                           searchInTree: TreeSearch)
    requires f.Unfinished()
    ensures f.Search(minX, minY, maxX, maxY, searchInTree)
            == searchInTree(f.nodeSize, 0, [], f.boxes, minX, minY, maxX, maxY, [])
  {
  }
}
