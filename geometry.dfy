/**
 * The value types of the drawing toolkit that the chart uses: `CGPoint`,
 * `CGSize` and `UIEdgeInsets`, with `CGFloat` modelled as `real`.
 */
module Geometry {

  datatype Point = Point(x: real, y: real)

  datatype Size = Size(width: real, height: real)

  datatype EdgeInsets = EdgeInsets(top: real, left: real, bottom: real, right: real)

  /** `CGSize.zero`. */
  const ZeroSize := Size(0.0, 0.0)

  /**
   * Squared Euclidean distance. The chart compares `distance` values only to
   * pick the nearest point; the square root is monotone, so the squared
   * distance has the same minimisers.
   */
  function SquaredDistance(p: Point, q: Point): (d: real)
    ensures d >= 0.0
    ensures p == q ==> d == 0.0
  {
    SquareNonNegative(p.x - q.x);
    SquareNonNegative(p.y - q.y);
    (p.x - q.x) * (p.x - q.x) + (p.y - q.y) * (p.y - q.y)
  }

  lemma SquareNonNegative(a: real)
    ensures a * a >= 0.0
  {
    if a < 0.0 {
      var b := -a;
      assert a * a == b * b;
    }
  }
}
