# Flatbush (Go port): build-phase model in Dafny

Flatbush is a static, packed R-tree for 2D boxes. Boxes are added one at a
time, `Finish` orders them along a Hilbert curve and packs them bottom-up
into a flat tree, and `Search` returns the indices of the boxes that overlap
a query box. This project models the parts of the Go port whose code is
visible. It proves what they guarantee:

- `hilbertXYToIndex` and `interleave` (common.go), the 32-bit Hilbert-curve
  rank. They are written as `bv32` functions with Go's shift semantics and
  uint32 wrap-around (module `Hilbert`, hilbert.dfy).
- `sortValuesAndBoxes` (common.go), the Hoare quicksort that sorts the
  Hilbert values in place and moves each box with its value. It is written
  as methods over two arrays (module `PairSort`, sort.dfy).
- The state kept by the three index types while boxes are added:
  constructor, `Reserve`, `Add`, the bookkeeping part of `Finish`, and
  `Search` delegating to `SearchFast`. These are the classes
  `GenericIndex.Flatbush` (flatbush.go), `Index32.Flatbush32` (flatbush32.go)
  and `Index64.Flatbush64` (flatbush64.go). They share the box geometry
  (module `Boxes`, boxes.dfy) and the node count of `Reserve`
  (module `IndexBuild`, build.dfy).

The tree builder `finishIndexBuild` and the tree query `searchInTree` are
defined in files that are not part of this model. `Finish` takes the builder
as a parameter of type `IndexBuild.Builder`. `Search` takes the query as a
parameter of type `IndexBuild.TreeSearch`. Their contracts therefore say how
the index state is handed over and stored, not what the tree looks like.

Coordinates are reals, because the modelled code only compares them with
`<`, `min` and `max`. The generic `Flatbush[TFloat]` takes its coordinate
type as a `Boxes.FloatType` value, `Float32` or `Float64`, which selects
the bound of the empty union.

The permutation property of the sort is stated as `PairSort.Rearranged`:
(values, boxes) is the original pair of arrays after some sequence of
exchanges inside the range, each applied to both arrays at the same two
positions. `PairSort.RearrangedKeepsPairs` proves what this means. The
multiset of (value, box) pairs on the range is unchanged, so every box stays
with its own value. Every position outside the range is unchanged too.

The comment on `Reserve` (flatbush.go:25) says it makes room for the given
number of items. The code does more than that: it replaces the box list with
a new empty one (flatbush.go:33), so boxes added before it are dropped, while
the bounds already widened by those boxes are kept. `Reserve`'s contract
states both effects.

## Model

| member | source | states |
|---|---|---|
| `Hilbert.Interleave` | common.go:72-78 | the result never has a bit set at an odd position |
| `Hilbert.InterleaveBits` | common.go:73-76 | for x < 2^16, bit 2k of `interleave(x)` is bit k of x, for every k < 16 |
| `Hilbert.InterleaveRoundTrip` | common.go:72-78 | gathering the even bits back (`Deinterleave`) recovers every 16-bit input, so `interleave` loses nothing |
| `Hilbert.InterleaveInjective` | common.go:72-78 | `interleave` is one-to-one on 16-bit inputs |
| `Hilbert.RawIndex` | common.go:9-68 | for 16-bit x and y, the even bits of the unshifted rank are exactly `interleave(x ^ y)`, since i1 lands only on odd bits |
| `Hilbert.HilbertXYToIndex` | common.go:3-69 | for 1 <= n <= 16 the rank is below 2^(2n); at n = 16 with 16-bit x and y its even bits are `interleave(x ^ y)` |
| `Hilbert.EvenBitsRecoverXor` | common.go:65-68 | at order 16 the rank determines x ^ y: de-interleaving its even bits gives x ^ y back |
| `Hilbert.OrderOneRanks` | common.go:3-69 | at order 1 the cells (0,0), (0,1), (1,1), (1,0) get ranks 0, 1, 2, 3, the U shape of the first Hilbert curve |
| `Hilbert.OrderTwoInjective` | common.go:3-69 | at order 2 two cells of the 4 x 4 grid with the same rank are the same cell |
| `Hilbert.OrderFourInjective` | common.go:3-69 | at order 4 two cells of the 16 x 16 grid with the same rank are the same cell |
| `Boxes.InvertedBox` | flatbush.go:21 | the starting bounds have each min above the matching max, the empty union |
| `Boxes.Widen` | flatbush.go:48-51 | the new bounds enclose the old bounds and the added box, and each side is the old side or the added box's side |
| `Boxes.WidenIsLeast` | flatbush.go:48-51 | the new bounds are the smallest box enclosing the old bounds and the added box |
| `Boxes.InvertedIsNeutral` | flatbush.go:21 | widening the inverted box by any box inside the coordinate range gives exactly that box |
| `Boxes.UnionAllEncloses` | flatbush.go:48-51 | after any sequence of Adds the bounds enclose the starting bounds and every added box |
| `Boxes.UnionAllTight` | flatbush.go:21 | from the inverted box, after a non-empty sequence of Adds inside the coordinate range, each side of the bounds is the side of some added box |
| `PairSort.ExchangePairs` | common.go:102-103 | swapping both arrays at the same i and j only reorders the (value, box) pairs of a range holding i and j |
| `PairSort.ReplayKeepsPairs` | common.go:90-104 | any number of such swaps inside [lo, hi) keep the multiset of pairs on [lo, hi) and change nothing outside it |
| `PairSort.RearrangedKeepsPairs` | common.go:81-107 | a rearranged range holds the same multiset of (value, box) pairs as before, and everything outside it is unchanged |
| `PairSort.RearrangedTransitive` | common.go:106-107 | a rearrangement of a subrange after a rearrangement of the range is a rearrangement of the range |
| `PairSort.AtMostSurvives` | common.go:106 | sorting the left part keeps all its values at most the pivot |
| `PairSort.AtLeastSurvives` | common.go:107 | sorting the right part keeps all its values at least the pivot |
| `PairSort.PrefixSurvives` | common.go:107 | sorting the right part leaves the sorted left part as it was |
| `PairSort.CombineSorted` | common.go:106-107 | a partitioned range whose two parts are each sorted in place ends sorted as a whole |
| `PairSort.CombineRecursion` | common.go:86-107 | partition then the two recursive calls, each a no-op on fewer than two positions, sort and rearrange [left, right] |
| `PairSort.SwapPairs` | common.go:102-103 | each array afterwards is its old contents with positions i and j exchanged and nothing else changed; the log is the old log with (i, j) appended, and the arrays are the original ones replayed through it; and it keeps [left, i] at most and [j, right] at least the pivot |
| `PairSort.ScanUp` | common.go:91-94 | the scan stops at the first value at least the pivot, never past a position known to hold one, so it stays in bounds |
| `PairSort.ScanDown` | common.go:95-98 | the scan stops at the first value at most the pivot, never past a position known to hold one, so it stays in bounds |
| `PairSort.Partition` | common.go:86-104 | the pivot is the middle value; the loop ends with left <= j < right, every value in [left, j] at most and every value in (j, right] at least the pivot, and the range rearranged |
| `PairSort.SortValuesAndBoxes` | common.go:81-107 | with left >= right both arrays are unchanged; otherwise values[left..right] ends in non-decreasing order and the range is rearranged with each box following its value; the recursion terminates because left <= j < right |
| `IndexBuild.ParentCount` | flatbush.go:30 | `(n + NodeSize - 1) / NodeSize` is the ceiling of n / NodeSize: the least number of nodes of NodeSize children that hold n nodes |
| `IndexBuild.ParentsFewer` | flatbush.go:29-30 | with NodeSize >= 2 a level of two or more nodes has fewer parents, so the loop terminates |
| `IndexBuild.LevelNodes` | flatbush.go:29-32 | the levels above n nodes add no node when n <= 1 and at least one node otherwise |
| `IndexBuild.CountNodes` | flatbush.go:27-32 | the counting loop returns size plus the nodes of every level above, up to the root |
| `IndexBuild.NodeCountAtLeastSize` | flatbush.go:27-32 | the count is at least size, and above it when size >= 2 |
| `IndexBuild.NodeCountSmall` | flatbush.go:27-29 | 0 items give 0 and 1 item gives 1 |
| `IndexBuild.NodeCountOneLevel` | flatbush.go:27-32 | 2 to NodeSize items give size + 1, a single root |
| `IndexBuild.NodeCountBelowTriple` | flatbush.go:27-32 | with NodeSize >= 2 the count for size >= 1 items is below 3 * size |
| `GenericIndex.Flatbush.constructor` | flatbush.go:18-23 | NodeSize 16, no boxes, bounds the inverted box of the coordinate type, no level bounds and numItems 0 |
| `GenericIndex.Flatbush.Reserve` | flatbush.go:26-34 | records the node count, replaces the box list with an empty one, keeps NodeSize, bounds, levelBounds and numItems, so an unfinished index stays unfinished |
| `GenericIndex.Flatbush.Add` | flatbush.go:39-53 | returns the number of boxes before the call, appends exactly one box with the given coordinates and that index, widens bounds by min/max, keeps the boxes densely indexed and enclosed by bounds, and leaves levelBounds and numItems as they were, so an unfinished index stays unfinished |
| `GenericIndex.Flatbush.Finish` | flatbush.go:56-59 | numItems is the number of boxes added; NodeSize, levelBounds, hilbertValues and boxes are what the builder returns for the old NodeSize, boxes and bounds |
| `GenericIndex.SearchFastReadsTree` | flatbush.go:67-71 | SearchFast reads only NodeSize, numItems, levelBounds and boxes: two indexes that agree on these give the same result for every query box, results list and tree query, whatever their bounds, Hilbert values and reserved room |
| `GenericIndex.SearchReadsTree` | flatbush.go:62-65 | Search on one index equals SearchFast from an empty results list on any index with the same NodeSize, numItems, levelBounds and boxes |
| `GenericIndex.SearchBeforeFinish` | flatbush.go:62-71 | on an index not yet finished, Search hands the tree query numItems 0, no level bounds and an empty results list |
| `GenericIndex.AddInOrder` | flatbush_test.go:70-84 | successive Adds return 0, 1, 2, ... after the boxes already present, store the boxes in that order, leave bounds the union of all of them, and keep an unfinished index unfinished |
| `Index32.Flatbush32.constructor` | flatbush32.go:18-23 | NodeSize 16, no boxes, bounds the inverted float32 box, no level bounds and numItems 0 |
| `Index32.Flatbush32.Reserve` | flatbush32.go:26-34 | records the node count, replaces the box list with an empty one, keeps NodeSize, bounds, levelBounds and numItems, so an unfinished index stays unfinished |
| `Index32.Flatbush32.Add` | flatbush32.go:39-53 | returns the prior box count, appends one box with the given coordinates and that index, widens bounds, keeps the boxes densely indexed and enclosed by bounds, and leaves levelBounds and numItems as they were, so an unfinished index stays unfinished |
| `Index32.Flatbush32.Finish` | flatbush32.go:56-59 | numItems is the number of boxes added; the other fields are what the builder returns |
| `Index32.SearchFastReadsTree` | flatbush32.go:67-71 | SearchFast reads only NodeSize, numItems, levelBounds and boxes: two indexes that agree on these give the same result for every query box, results list and tree query, whatever their bounds, Hilbert values and reserved room |
| `Index32.SearchReadsTree` | flatbush32.go:62-65 | Search on one index equals SearchFast from an empty results list on any index with the same NodeSize, numItems, levelBounds and boxes |
| `Index32.SearchBeforeFinish` | flatbush32.go:62-71 | on an index not yet finished, Search hands the tree query numItems 0, no level bounds and an empty results list |
| `Index32.AddInOrder` | flatbush32_test.go:22-38 | successive Adds return consecutive indices in insertion order, leave bounds the union of the added boxes, and keep an unfinished index unfinished |
| `Index64.Flatbush64.constructor` | flatbush64.go:18-23 | NodeSize 16, no boxes, bounds the inverted float64 box, no level bounds and numItems 0 |
| `Index64.Flatbush64.Reserve` | flatbush64.go:26-34 | records the node count, replaces the box list with an empty one, keeps NodeSize, bounds, levelBounds and numItems, so an unfinished index stays unfinished |
| `Index64.Flatbush64.Add` | flatbush64.go:39-53 | returns the prior box count, appends one box with the given coordinates and that index, widens bounds, keeps the boxes densely indexed and enclosed by bounds, and leaves levelBounds and numItems as they were, so an unfinished index stays unfinished |
| `Index64.Flatbush64.Finish` | flatbush64.go:56-59 | numItems is the number of boxes added; the other fields are what the builder returns |
| `Index64.SearchFastReadsTree` | flatbush64.go:67-71 | SearchFast reads only NodeSize, numItems, levelBounds and boxes: two indexes that agree on these give the same result for every query box, results list and tree query, whatever their bounds, Hilbert values and reserved room |
| `Index64.SearchReadsTree` | flatbush64.go:62-65 | Search on one index equals SearchFast from an empty results list on any index with the same NodeSize, numItems, levelBounds and boxes |
| `Index64.SearchBeforeFinish` | flatbush64.go:62-71 | on an index not yet finished, Search hands the tree query numItems 0, no level bounds and an empty results list |

## Left out

- `finishIndexBuild` and the live `searchInTree` are not part of this model; their definitions are in files outside it. They are parameters, so nothing is proved about the packed tree or about query results.
- The commented-out `searchInTree` at common.go:110-157 is dead code and is not modelled.
- IEEE floating point: coordinates are reals. NaN under Go's `min`/`max`, rounding and signed zeros are not modelled.
- `IndexBuild.CountNodes`: Go's `int` is 64 bits wide, and the model's integers are unbounded. The wrap-around of `n + NodeSize - 1` and `numNodes += n` (flatbush.go:30-31) is not modelled. For example, with NodeSize = 2^63 - 1 and size 2 the Go numerator wraps to -2^63, so Go ends with a count of 1 where the model gives 3. Such a NodeSize is far beyond any useful tree.
- `GenericIndex.Flatbush.Reserve`: its node count is `IndexBuild.NodeCount` over unbounded integers, so 64-bit overflow in the count is not modelled (see `IndexBuild.CountNodes`).
- `Index32.Flatbush32.Reserve`: as `GenericIndex.Flatbush.Reserve`, 64-bit overflow in the count is not modelled.
- `Index64.Flatbush64.Reserve`: as `GenericIndex.Flatbush.Reserve`, 64-bit overflow in the count is not modelled.
- Slice capacity: `Reserve` stores its node count in the field `reserved`, which stands for the capacity of the new box list. The growth of that capacity when `Add` appends is not modelled.
- `Reserve` requires `size >= 0`, because Go's `make` panics on a negative capacity. It also requires `NodeSize >= 2` when `size > 1`: with NodeSize 1 the loop never ends, and with 0 it divides by zero. NodeSize below the documented minimum of 2 is not modelled otherwise.
- `InvertedBox`, `Box` and `MinMaxValueOfType` are not part of this model. The inverted box is taken as mins at the largest finite value of the coordinate type, maxes at its negation, and index -1; the index of the bounds is never read by the modelled code.
- `sortValuesAndBoxes` is generic over `Box32 | Box64`; the model uses one box type with real coordinates.
- `Hilbert.HilbertXYToIndex`: for every order only the range bound and the even-bit structure are proved. That the rank is one-to-one on the 2^n x 2^n grid is proved for orders 2 and 4 only: at order 8 the bit-vector proof already runs out of the solver's resource limit, and order 16 is larger still. That the rank is onto, and that it follows the Hilbert curve's locality, is not proved.
- The tests' random queries, the benchmarks and their timing and logging are not modelled. Only the index checks of the insertion loops are restated, as `AddInOrder`.
