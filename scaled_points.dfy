/**
 * The discrete scaled-points generator: it caches the value range of a series
 * behind a dirty flag and maps every sample to a drawable point, x evenly
 * spaced across the width and y inverted and inset vertically.
 */
module ScaledPoints {
  import opened Wrappers
  import opened Geometry

  /** The insets a fresh generator starts with. */
  const DefaultInsets := EdgeInsets(20.0, 0.0, 40.0, 0.0)

  /** The horizontal-scale multiplier; the generator never changes it. */
  const HScale: real := 1.0

  /** `vDSP_minv` over a non-empty series. */
  function SeqMin(s: seq<real>): (m: real)
    requires |s| > 0
    ensures m in s
    ensures forall k :: 0 <= k < |s| ==> m <= s[k]
  {
    if |s| == 1 then s[0]
    else
      var rest := SeqMin(s[1..]);
      assert forall k :: 1 <= k < |s| ==> s[k] == s[1..][k - 1];
      if s[0] <= rest then s[0] else rest
  }

  /** `vDSP_maxv` over a non-empty series. */
  function SeqMax(s: seq<real>): (m: real)
    requires |s| > 0
    ensures m in s
    ensures forall k :: 0 <= k < |s| ==> s[k] <= m
  {
    if |s| == 1 then s[0]
    else
      var rest := SeqMax(s[1..]);
      assert forall k :: 1 <= k < |s| ==> s[k] == s[1..][k - 1];
      if s[0] >= rest then s[0] else rest
  }

  /**
   * One element of `vDSP_vasm(data, -min, 1 / range)`, that is (v - min) / range,
   * after the coercion of a non-finite result to 0. Over the reals the result
   * is non-finite exactly when the range is 0 (then 1 / range is infinite and
   * (v - min) times it is infinite or NaN), so that whole case yields 0.
   */
  function Normalized(v: real, lo: real, hi: real): (s: real)
    ensures hi - lo == 0.0 ==> s == 0.0
    ensures hi - lo != 0.0 ==> s * (hi - lo) == v - lo
  {
    if hi - lo == 0.0 then 0.0 else (v - lo) / (hi - lo)
  }

  /**
   * The point of the `i`-th of `n` samples. The horizontal insets are summed
   * by the source but never used, so x spans the full width.
   */
  function ScaledPoint(v: real, i: nat, n: nat, size: Size, insets: EdgeInsets, lo: real, hi: real): (p: Point)
    requires i < n
    ensures i == 0 ==> p.x == 0.0
    ensures Normalized(v, lo, hi) == 0.0 ==> p.y == size.height - insets.bottom
    ensures Normalized(v, lo, hi) == 1.0 ==> p.y == insets.top
  {
    var insetHeight := insets.bottom + insets.top;
    var drawHeight := size.height - insetHeight;
    var xScale := size.width / n as real;
    Point(xScale * HScale * i as real, drawHeight * (1.0 - Normalized(v, lo, hi)) + insets.top)
  }

  /** `makePoints(data:size:)` for the given insets and cached limits. */
  function ScalePoints(data: seq<real>, size: Size, insets: EdgeInsets, lo: real, hi: real): (r: seq<Point>)
    ensures |r| == |data|
    ensures forall i :: 0 <= i < |data| ==> r[i] == ScaledPoint(data[i], i, |data|, size, insets, lo, hi)
  {
    seq(|data|, i requires 0 <= i < |data| => ScaledPoint(data[i], i, |data|, size, insets, lo, hi))
  }

  lemma SignOfFactor(t: real, r: real)
    requires r > 0.0 && t * r >= 0.0
    ensures t >= 0.0
  {
  }

  /** Inside a positive range every normalised value lies in [0, 1]. */
  lemma NormalizedBetween(v: real, lo: real, hi: real)
    requires lo < hi && lo <= v <= hi
    ensures 0.0 <= Normalized(v, lo, hi) <= 1.0
  {
    SignOfFactor(Normalized(v, lo, hi), hi - lo);
    assert (1.0 - Normalized(v, lo, hi)) * (hi - lo) == hi - v;
    SignOfFactor(1.0 - Normalized(v, lo, hi), hi - lo);
  }

  /** Over a positive range normalisation preserves order. */
  lemma NormalizedMonotone(v: real, w: real, lo: real, hi: real)
    requires lo < hi && v <= w
    ensures Normalized(v, lo, hi) <= Normalized(w, lo, hi)
  {
    assert (Normalized(w, lo, hi) - Normalized(v, lo, hi)) * (hi - lo) == w - v;
    SignOfFactor(Normalized(w, lo, hi) - Normalized(v, lo, hi), hi - lo);
  }

  /** The x of point `i` is width * i / n: below the width and above the previous one when the width is positive. */
  lemma ScaledX(v: real, i: nat, n: nat, size: Size, insets: EdgeInsets, lo: real, hi: real)
    requires i < n
    ensures ScaledPoint(v, i, n, size, insets, lo, hi).x == size.width * i as real / n as real
    ensures size.width > 0.0 ==> 0.0 <= ScaledPoint(v, i, n, size, insets, lo, hi).x < size.width
    ensures size.width > 0.0 && i > 0 ==>
      ScaledPoint(v, i, n, size, insets, lo, hi).x - size.width / n as real == size.width * (i - 1) as real / n as real
  {
    var w := size.width;
    var q := w / n as real;
    assert q * n as real == w;
    assert ScaledPoint(v, i, n, size, insets, lo, hi).x == q * i as real;
    if w > 0.0 {
      assert q > 0.0;
      assert q * (n as real - i as real) > 0.0;
    }
  }

  /**
   * The y of a sample is the drawable height times one minus its normalised
   * value, below the top inset.
   */
  lemma ScaledY(v: real, i: nat, n: nat, size: Size, insets: EdgeInsets, lo: real, hi: real)
    requires i < n
    requires lo < hi && size.height >= insets.top + insets.bottom
    ensures lo <= v <= hi ==>
      insets.top <= ScaledPoint(v, i, n, size, insets, lo, hi).y <= size.height - insets.bottom
    ensures v == hi ==> ScaledPoint(v, i, n, size, insets, lo, hi).y == insets.top
  {
    var h := size.height - (insets.bottom + insets.top);
    var s := Normalized(v, lo, hi);
    assert ScaledPoint(v, i, n, size, insets, lo, hi).y == h * (1.0 - s) + insets.top;
    if lo <= v <= hi {
      NormalizedBetween(v, lo, hi);
      ProductNonNegative(h, 1.0 - s);
      ProductNonNegative(h, s);
      Distribute(h, s);
    }
    if v == hi {
      DivSelf(hi - lo);
    }
  }

  lemma Distribute(a: real, b: real)
    ensures a * (1.0 - b) == a - a * b
  {
  }

  lemma DivSelf(x: real)
    requires x != 0.0
    ensures x / x == 1.0
  {
  }

  /** A larger sample never gets a larger y, whatever the two indices. */
  lemma ScaledYMonotone(v: real, w: real, i: nat, j: nat, n: nat, size: Size, insets: EdgeInsets, lo: real, hi: real)
    requires i < n && j < n
    requires lo < hi && size.height >= insets.top + insets.bottom && v <= w
    ensures ScaledPoint(w, j, n, size, insets, lo, hi).y <= ScaledPoint(v, i, n, size, insets, lo, hi).y
  {
    var h := size.height - (insets.bottom + insets.top);
    var sv, sw := Normalized(v, lo, hi), Normalized(w, lo, hi);
    NormalizedMonotone(v, w, lo, hi);
    ProductNonNegative(h, sw - sv);
    assert h * (1.0 - sv) - h * (1.0 - sw) == h * (sw - sv);
  }

  lemma ProductNonNegative(a: real, b: real)
    requires a >= 0.0 && b >= 0.0
    ensures a * b >= 0.0
  {
  }

  /**
   * x layout: the first point sits at x = 0, the k-th at width * k / n, every
   * x is below the width, and x strictly increases, whenever the width is
   * positive.
   */
  lemma {:induction false} XLayout(data: seq<real>, size: Size, insets: EdgeInsets, lo: real, hi: real, pts: seq<Point>)
    requires pts == ScalePoints(data, size, insets, lo, hi)
    requires |data| > 0
    ensures pts[0].x == 0.0
    ensures forall i :: 0 <= i < |pts| ==> pts[i].x == size.width * i as real / |pts| as real
    ensures size.width > 0.0 ==> forall i :: 0 <= i < |pts| ==> 0.0 <= pts[i].x < size.width
    ensures size.width > 0.0 ==> forall i, j :: 0 <= i < j < |pts| ==> pts[i].x < pts[j].x
  {
    var n := |data|;
    forall i | 0 <= i < n
      ensures pts[i].x == size.width * i as real / n as real
      ensures size.width > 0.0 ==> 0.0 <= pts[i].x < size.width
      ensures size.width > 0.0 && i > 0 ==> pts[i - 1].x < pts[i].x
    {
      ScaledX(data[i], i, n, size, insets, lo, hi);
      if i > 0 {
        ScaledX(data[i - 1], i - 1, n, size, insets, lo, hi);
        if size.width > 0.0 {
          assert size.width / n as real > 0.0;
        }
      }
    }
    if size.width > 0.0 {
      forall i, j | 0 <= i < j < n
        ensures pts[i].x < pts[j].x
      {
        StepsIncrease(pts, i, j);
      }
    }
  }

  lemma {:induction false} StepsIncrease(pts: seq<Point>, i: nat, j: nat)
    requires i < j < |pts|
    requires forall k :: 0 < k < |pts| ==> pts[k - 1].x < pts[k].x
    ensures pts[i].x < pts[j].x
    decreases j - i
  {
    if i + 1 < j {
      StepsIncrease(pts, i + 1, j);
    }
  }

  /**
   * y layout over a positive range and a drawable height of at least the two
   * vertical insets: a sample within the limits lands between the top inset
   * and the bottom line, the maximum maps to the top inset, and a larger
   * sample never gets a larger y.
   */
  lemma {:induction false} YLayout(data: seq<real>, size: Size, insets: EdgeInsets, lo: real, hi: real, pts: seq<Point>)
    requires pts == ScalePoints(data, size, insets, lo, hi)
    ensures lo < hi && size.height >= insets.top + insets.bottom ==>
      forall i :: 0 <= i < |pts| && lo <= data[i] <= hi ==> insets.top <= pts[i].y <= size.height - insets.bottom
    ensures lo != hi ==> forall i :: 0 <= i < |pts| && data[i] == hi ==> pts[i].y == insets.top
    ensures lo < hi && size.height >= insets.top + insets.bottom ==>
      forall i, j :: 0 <= i < |pts| && 0 <= j < |pts| && data[i] <= data[j] ==> pts[j].y <= pts[i].y
  {
    if lo < hi && size.height >= insets.top + insets.bottom {
      forall i | 0 <= i < |pts|
        ensures lo <= data[i] <= hi ==> insets.top <= pts[i].y <= size.height - insets.bottom
      {
        ScaledY(data[i], i, |data|, size, insets, lo, hi);
      }
      forall i, j | 0 <= i < |pts| && 0 <= j < |pts| && data[i] <= data[j]
        ensures pts[j].y <= pts[i].y
      {
        ScaledYMonotone(data[i], data[j], i, j, |data|, size, insets, lo, hi);
      }
    }
    if lo != hi {
      forall i | 0 <= i < |pts| && data[i] == hi
        ensures pts[i].y == insets.top
      {
        DivSelf(hi - lo);
      }
    }
  }

  /**
   * A sample equal to the minimum lands on the bottom line, whatever the
   * range; with a zero range (for instance both limits 0, as on a fresh
   * generator) every sample does: the line is flat at the bottom, not the top.
   */
  lemma {:induction false} BottomLine(data: seq<real>, size: Size, insets: EdgeInsets, lo: real, hi: real, pts: seq<Point>)
    requires pts == ScalePoints(data, size, insets, lo, hi)
    ensures forall i :: 0 <= i < |pts| && data[i] == lo ==> pts[i].y == size.height - insets.bottom
    ensures hi == lo ==> forall i :: 0 <= i < |pts| ==> pts[i].y == size.height - insets.bottom
  {
    forall i | 0 <= i < |pts| && (data[i] == lo || hi == lo)
      ensures pts[i].y == size.height - insets.bottom
    {
      assert Normalized(data[i], lo, hi) == 0.0;
    }
  }

  /**
   * `DiscreteScaledPointsGenerator`: the cached limits, the overrides that
   * invalidate them and the insets used when scaling.
   */
  class DiscreteScaledPointsGenerator {
    var insets: EdgeInsets
    var isLimitsDirty: bool
    var maximumValue: real
    var minimumValue: real
    var minimum: Option<real>
    var maximum: Option<real>

    constructor ()
      ensures insets == DefaultInsets && isLimitsDirty
      ensures minimumValue == 0.0 && maximumValue == 0.0
      ensures minimum == None && maximum == None
    {
      insets := DefaultInsets;
      isLimitsDirty := true;
      maximumValue := 0.0;
      minimumValue := 0.0;
      minimum := None;
      maximum := None;
    }

    /** Assigning `minimum` (its `didSet` observer marks the limits dirty). */
    method SetMinimum(value: Option<real>)
      modifies this
      ensures minimum == value && isLimitsDirty
      ensures maximum == old(maximum) && insets == old(insets)
      ensures minimumValue == old(minimumValue) && maximumValue == old(maximumValue)
    {
      minimum := value;
      isLimitsDirty := true;
    }

    /** Assigning `maximum` (its `didSet` observer marks the limits dirty). */
    method SetMaximum(value: Option<real>)
      modifies this
      ensures maximum == value && isLimitsDirty
      ensures minimum == old(minimum) && insets == old(insets)
      ensures minimumValue == old(minimumValue) && maximumValue == old(maximumValue)
    {
      maximum := value;
      isLimitsDirty := true;
    }

    /** The protocol's default `range`. */
    function Range(): (r: real)
      reads this
      ensures minimumValue + r == maximumValue
    {
      maximumValue - minimumValue
    }

    /**
     * Recomputes the cached limits from the overrides or, where an override
     * is absent, from the data, but only when they are dirty. The data must
     * be non-empty when it is consulted.
     */
    method UpdateRangeLimits(data: seq<real>)
      requires isLimitsDirty && (minimum.None? || maximum.None?) ==> |data| > 0
      modifies this
      ensures minimum == old(minimum) && maximum == old(maximum) && insets == old(insets)
      ensures !old(isLimitsDirty) ==>
        minimumValue == old(minimumValue) && maximumValue == old(maximumValue)
      ensures old(isLimitsDirty) ==>
        minimumValue == (if minimum.Some? then minimum.value else SeqMin(data))
      ensures old(isLimitsDirty) ==>
        maximumValue == (if maximum.Some? then maximum.value else SeqMax(data))
      ensures !isLimitsDirty
    {
      if !isLimitsDirty {
        return;
      }
      var min: real := 0.0;
      if minimum.Some? {
        min := minimum.value;
      } else {
        min := SeqMin(data);
      }
      minimumValue := min;
      var max: real := 0.0;
      if maximum.Some? {
        max := maximum.value;
      } else {
        max := SeqMax(data);
      }
      maximumValue := max;
      isLimitsDirty := false;
    }

    /**
     * `makePoints(data:size:)`: a function of the object, so it reads the
     * limits, the flag and the insets and changes none of them.
     */
    function MakePoints(data: seq<real>, size: Size): (r: seq<Point>)
      reads this
      ensures |r| == |data|
      ensures Range() == 0.0 ==> forall i :: 0 <= i < |r| ==> r[i].y == size.height - insets.bottom
      ensures Range() > 0.0 && size.height >= insets.top + insets.bottom ==>
        forall i :: 0 <= i < |r| && minimumValue <= data[i] <= maximumValue ==>
          insets.top <= r[i].y <= size.height - insets.bottom
    {
      var pts := ScalePoints(data, size, insets, minimumValue, maximumValue);
      BottomLine(data, size, insets, minimumValue, maximumValue, pts);
      YLayout(data, size, insets, minimumValue, maximumValue, pts);
      pts
    }
  }

  /**
   * Two updates in a row: the second changes nothing, and the cached limits
   * survive it even when it is given different data.
   */
  method UpdateTwice(g: DiscreteScaledPointsGenerator, first: seq<real>, second: seq<real>)
    requires g.isLimitsDirty && (g.minimum.None? || g.maximum.None?) ==> |first| > 0
    modifies g
    ensures g.minimum == old(g.minimum) && g.maximum == old(g.maximum)
    ensures !g.isLimitsDirty
    ensures !old(g.isLimitsDirty) ==>
      g.minimumValue == old(g.minimumValue) && g.maximumValue == old(g.maximumValue)
    ensures old(g.isLimitsDirty) ==>
      g.minimumValue == (if g.minimum.Some? then g.minimum.value else SeqMin(first))
    ensures old(g.isLimitsDirty) ==>
      g.maximumValue == (if g.maximum.Some? then g.maximum.value else SeqMax(first))
  {
    g.UpdateRangeLimits(first);
    ghost var lo, hi := g.minimumValue, g.maximumValue;
    g.UpdateRangeLimits(second);
    assert g.minimumValue == lo && g.maximumValue == hi;
  }
}
