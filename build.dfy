/** What the three index types share: the node count that Reserve computes,
    and the shapes of the tree builder and the tree query that Finish and
    SearchFast hand their state to. */
module IndexBuild {
  import opened Boxes
  import opened PairSort

  /** The nodes of the level above a level of n nodes when each node holds
      up to nodeSize children: the ceiling of n / nodeSize, as
      `(n + NodeSize - 1) / NodeSize` computes it (the numerator is positive,
      so Go's truncating division agrees with Dafny's). It is the least
      number of parents that can hold all n children. */
  function ParentCount(n: int, nodeSize: int): (c: int)
    requires n >= 1 && nodeSize >= 1
    ensures c >= 1
    ensures c * nodeSize >= n && (c - 1) * nodeSize < n
  {
    var q := (n + nodeSize - 1) / nodeSize;
    assert q * nodeSize + (n + nodeSize - 1) % nodeSize == n + nodeSize - 1;
    assert (q - 1) * nodeSize == q * nodeSize - nodeSize;
    q
  }

  /** A level of two or more nodes has fewer parents than nodes, so the
      counting loop of Reserve climbs to a single root. */
  lemma ParentsFewer(n: int, nodeSize: int)
    requires n >= 2 && nodeSize >= 2
    ensures ParentCount(n, nodeSize) < n
  {
    var c := ParentCount(n, nodeSize);
    ProductAtLeast(c - 1, nodeSize, 2);
  }

  /** a * k >= a * m for a >= 0 and k >= m. */
  lemma ProductAtLeast(a: int, k: int, m: int)
    requires a >= 0 && k >= m
    ensures a * k >= a * m
  {
    assert a * k - a * m == a * (k - m);
  }

  /** The nodes of all levels above a level of n nodes, up to and including
      the root; none when n is at most 1. */
  function LevelNodes(n: int, nodeSize: int): (r: int)
    requires n <= 1 || nodeSize >= 2
    ensures r >= 0
    ensures n >= 2 ==> r >= 1
    decreases n
  {
    if n <= 1 then 0
    else
      ParentsFewer(n, nodeSize);
      var c := ParentCount(n, nodeSize);
      c + LevelNodes(c, nodeSize)
  }

  /** The total that Reserve asks room for: the size items plus every
      interior node above them. */
  function NodeCount(size: int, nodeSize: int): int
    requires size <= 1 || nodeSize >= 2
  {
    size + LevelNodes(size, nodeSize)
  }

  /** The count is never below the number of items. */
  lemma NodeCountAtLeastSize(size: int, nodeSize: int)
    requires size >= 0 && (size <= 1 || nodeSize >= 2)
    ensures NodeCount(size, nodeSize) >= size
    ensures size >= 2 ==> NodeCount(size, nodeSize) > size
  {
  }

  /** No items or a single item need no node above them. */
  lemma NodeCountSmall(size: int, nodeSize: int)
    requires 0 <= size <= 1
    ensures NodeCount(size, nodeSize) == size
  {
  }

  /** Up to nodeSize nodes need a single parent. */
  lemma SingleParent(n: int, nodeSize: int)
    requires 1 <= n <= nodeSize
    ensures ParentCount(n, nodeSize) == 1
  {
    var c := ParentCount(n, nodeSize);
    if c >= 2 {
      ProductAtLeast(c - 1, nodeSize, 1);
    }
  }

  /** Two to nodeSize items fit under a single root. */
  lemma NodeCountOneLevel(size: int, nodeSize: int)
    requires 2 <= size <= nodeSize
    ensures NodeCount(size, nodeSize) == size + 1
  {
    SingleParent(size, nodeSize);
  }

  /** Room for fewer than three nodes per item: each level above the items
      has at most about half the nodes of the level below it. */
  lemma {:induction false} NodeCountBelowTriple(size: int, nodeSize: int)
    requires size >= 1 && nodeSize >= 2
    ensures NodeCount(size, nodeSize) < 3 * size
    decreases size
  {
    if size >= 2 {
      var c := ParentCount(size, nodeSize);
      ParentsFewer(size, nodeSize);
      ProductAtLeast(c - 1, nodeSize, 2);
      NodeCountBelowTriple(c, nodeSize);
    }
  }

  /** The counting loop of Reserve: starting from the size items, climb a
      level at a time, adding each level's nodes, until a single node (or
      none) is left. */
  method CountNodes(size: int, nodeSize: int) returns (numNodes: int)
    requires size <= 1 || nodeSize >= 2
    ensures numNodes == NodeCount(size, nodeSize)
  {
    var n := size;
    numNodes := n;
    while n > 1
      invariant n <= 1 || nodeSize >= 2
      invariant numNodes + LevelNodes(n, nodeSize) == NodeCount(size, nodeSize)
      decreases n
    {
      ParentsFewer(n, nodeSize);
      n := (n + nodeSize - 1) / nodeSize;
      numNodes := numNodes + n;
    }
  }

  /** What the tree builder returns, in the order Finish stores it: the
      node size, the level bounds, the Hilbert values and the packed boxes. */
  datatype Built = Built(nodeSize: int, levelBounds: seq<int>,
                         hilbertValues: seq<U32>, boxes: seq<Box>)

  /** finishIndexBuild(NodeSize, boxes, bounds). */
  type Builder = (int, seq<Box>, Box) -> Built

  /** searchInTree(NodeSize, numItems, levelBounds, boxes, minX, minY, maxX,
      maxY, results). */
  type TreeSearch = (int, int, seq<int>, seq<Box>, real, real, real, real, seq<int>) -> seq<int>
}
