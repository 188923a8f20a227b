/** Axis-aligned boxes and the running union kept while boxes are added.
    Coordinates are modelled as reals: the index only compares them. */
module Boxes {

  /** A box with the position it was added at (Index in the source). */
  datatype Box = Box(minX: real, minY: real, maxX: real, maxY: real, index: int)

  /** The largest finite float32 and float64 values (math.MaxFloat32 and
      math.MaxFloat64), written out exactly. */
  const MaxFloat32: real := 340282346638528859811704183484516925440.0
  const MaxFloat64: real := 179769313486231570814527423731704356798070567525844996598917476803157260780028538760589558632766878171540458953514382464234321326889464182768467546703537516986049910576551282076245490090389328944075868508455133942304583236903222948165808559332123348274797826204144723168738177180919299881250404026184124858368.0

  /** The coordinate type of the generic index (TFloat is float32 or float64). */
  datatype FloatType = Float32 | Float64

  /** The largest finite value of a coordinate type. */
  function MaxOf(t: FloatType): (m: real)
    ensures m > 0.0
  {
    match t
    case Float32 => MaxFloat32
    case Float64 => MaxFloat64
  }

  /** The empty union: mins at the largest value, maxes at the smallest. */
  function InvertedBox(maxValue: real): (r: Box)
    requires maxValue > 0.0
    ensures r.maxX < r.minX && r.maxY < r.minY
  {
    Box(maxValue, maxValue, -maxValue, -maxValue, -1)
  }

  function Min(a: real, b: real): real { if a <= b then a else b }
  function Max(a: real, b: real): real { if a >= b then a else b }

  /** outer covers inner on both axes. */
  predicate Encloses(outer: Box, inner: Box)
  {
    outer.minX <= inner.minX && outer.minY <= inner.minY &&
    outer.maxX >= inner.maxX && outer.maxY >= inner.maxY
  }

  /** The bounds after a box with the given coordinates is added: the
      smallest box that encloses both the old bounds and the new box. */
  function Widen(bounds: Box, minX: real, minY: real, maxX: real, maxY: real): (r: Box)
    ensures Encloses(r, bounds)
    ensures Encloses(r, Box(minX, minY, maxX, maxY, 0))
    ensures r.minX in {bounds.minX, minX} && r.minY in {bounds.minY, minY}
    ensures r.maxX in {bounds.maxX, maxX} && r.maxY in {bounds.maxY, maxY}
    ensures r.index == bounds.index
  {
    bounds.(minX := Min(bounds.minX, minX), minY := Min(bounds.minY, minY),
            maxX := Max(bounds.maxX, maxX), maxY := Max(bounds.maxY, maxY))
  }

  /** Widening is the least upper bound: any box enclosing both the old
      bounds and the added box encloses the result. */
  lemma WidenIsLeast(bounds: Box, b: Box, e: Box)
    requires Encloses(e, bounds) && Encloses(e, b)
    ensures Encloses(e, Widen(bounds, b.minX, b.minY, b.maxX, b.maxY))
  {
  }

  /** Every coordinate of b lies in [-maxValue, maxValue]. */
  predicate WithinRange(b: Box, maxValue: real)
  {
    -maxValue <= b.minX <= maxValue && -maxValue <= b.minY <= maxValue &&
    -maxValue <= b.maxX <= maxValue && -maxValue <= b.maxY <= maxValue
  }

  /** The inverted box is the neutral element of the union: widening it by a
      box inside the representable range yields exactly that box. */
  lemma InvertedIsNeutral(maxValue: real, b: Box)
    requires maxValue > 0.0
    requires WithinRange(b, maxValue)
    ensures var w := Widen(InvertedBox(maxValue), b.minX, b.minY, b.maxX, b.maxY);
            w.minX == b.minX && w.minY == b.minY && w.maxX == b.maxX && w.maxY == b.maxY
  {
  }

  /** The union of start and every box of bs, widening in order as a
      sequence of Adds does. */
  function UnionAll(start: Box, bs: seq<Box>): Box
  {
    if bs == [] then start
    else
      var last := bs[|bs| - 1];
      Widen(UnionAll(start, bs[..|bs| - 1]), last.minX, last.minY, last.maxX, last.maxY)
  }

  /** The union encloses the start and every box folded into it. */
  lemma {:induction false} UnionAllEncloses(start: Box, bs: seq<Box>)
    ensures Encloses(UnionAll(start, bs), start)
    ensures forall k :: 0 <= k < |bs| ==> Encloses(UnionAll(start, bs), bs[k])
  {
    if bs != [] {
      var init := bs[..|bs| - 1];
      UnionAllEncloses(start, init);
      var u := UnionAll(start, bs);
      forall k | 0 <= k < |bs| ensures Encloses(u, bs[k]) {
        if k < |bs| - 1 {
          assert bs[k] == init[k];
        }
      }
    }
  }

  /** Starting from the inverted box, the union of a non-empty list of boxes
      inside the representable range is tight: each of its sides is a side
      of some box of the list. */
  lemma {:induction false} UnionAllTight(maxValue: real, bs: seq<Box>)
    requires maxValue > 0.0 && bs != []
    requires forall k :: 0 <= k < |bs| ==> WithinRange(bs[k], maxValue)
    ensures var u := UnionAll(InvertedBox(maxValue), bs);
            (exists k :: 0 <= k < |bs| && u.minX == bs[k].minX) &&
            (exists k :: 0 <= k < |bs| && u.minY == bs[k].minY) &&
            (exists k :: 0 <= k < |bs| && u.maxX == bs[k].maxX) &&
            (exists k :: 0 <= k < |bs| && u.maxY == bs[k].maxY)
  {
    var n := |bs| - 1;
    var init := bs[..n];
    if init == [] {
      assert UnionAll(InvertedBox(maxValue), init) == InvertedBox(maxValue);
      InvertedIsNeutral(maxValue, bs[0]);
    } else {
      UnionAllTight(maxValue, init);
      var p := UnionAll(InvertedBox(maxValue), init);
      var u := UnionAll(InvertedBox(maxValue), bs);
      assert u == Widen(p, bs[n].minX, bs[n].minY, bs[n].maxX, bs[n].maxY);
      var k1 :| 0 <= k1 < |init| && p.minX == init[k1].minX;
      var k2 :| 0 <= k2 < |init| && p.minY == init[k2].minY;
      var k3 :| 0 <= k3 < |init| && p.maxX == init[k3].maxX;
      var k4 :| 0 <= k4 < |init| && p.maxY == init[k4].maxY;
      assert init[k1] == bs[k1] && init[k2] == bs[k2];
      assert init[k3] == bs[k3] && init[k4] == bs[k4];
    }
  }

  /** bs with the index of each box set to its position, counted from first. */
  function Stamped(bs: seq<Box>, first: int): (r: seq<Box>)
    ensures |r| == |bs|
    ensures forall k :: 0 <= k < |bs| ==>
              r[k] == Box(bs[k].minX, bs[k].minY, bs[k].maxX, bs[k].maxY, first + k)
  {
    seq(|bs|, k requires 0 <= k < |bs| => bs[k].(index := first + k))
  }

  /** Each stored box carries its own position as its index. */
  predicate DenselyIndexed(bs: seq<Box>)
  {
    forall k :: 0 <= k < |bs| ==> bs[k].index == k
  }

  /** bounds encloses every stored box. */
  predicate EnclosesAll(bounds: Box, bs: seq<Box>)
  {
    forall k :: 0 <= k < |bs| ==> Encloses(bounds, bs[k])
  }
}
