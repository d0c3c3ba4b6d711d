/**
 * Renders: the value record that binds a series to its drawn points
 * (`DataRender`) with its point and index lookups, the mutable render that
 * holds one such record and its layers (`BaseRender`), and the manager that
 * keeps the ordered list of renders (`RenderManager`).
 */
module Render {
  import opened Wrappers
  import opened Geometry
  import opened ScaledPoints

  /** The raw values of `RenderIdent`. */
  datatype RenderIdent = Polyline | Points | SelectedPoint | Base {
    function RawValue(): (r: nat)
      ensures r < 4
    {
      match this
      case Polyline => 0
      case Points => 1
      case SelectedPoint => 2
      case Base => 3
    }
  }

  datatype SimplifyType =
    | NoSimplification
    | DouglasPeuckerRadial
    | DouglasPeuckerDecimate
    | Visvalingam
    | RamerDouglasPeuckerPerp

  /** The transform that produced a render's points. */
  datatype RenderDataType =
    | Discrete
    | Stadistics(window: real)
    | Simplify(algorithm: SimplifyType, tolerance: real)
    | Regress(degree: int)

  /**
   * A drawing layer. Layers are objects compared by identity, so a layer is
   * modelled by its identity alone.
   */
  datatype Layer = Layer(id: nat)

  /** The value returned by `sectionIndex` when no data index is found (`Index.bad`). */
  const BadIndex: int := -1

  /** The first index of `p` in `s`: `firstIndex(of:)`. */
  function FirstIndexOf(s: seq<Point>, p: Point): (r: Option<nat>)
    ensures r.None? <==> p !in s
    ensures r.Some? ==> IsFirstMatch(s, p, r.value)
  {
    if |s| == 0 then None
    else if s[0] == p then Some(0)
    else
      match FirstIndexOf(s[1..], p)
      case None => None
      case Some(k) => Some(k + 1)
  }

  ghost predicate IsFirstMatch(s: seq<Point>, p: Point, k: int) {
    0 <= k < |s| && s[k] == p && forall j :: 0 <= j < k ==> s[j] != p
  }

  ghost predicate IsNearest(s: seq<Point>, p: Point, k: int) {
    0 <= k < |s| && forall j :: 0 <= j < |s| ==> SquaredDistance(s[k], p) <= SquaredDistance(s[j], p)
  }

  /** `points.map { $0.distance(point) }`, with squared distances. */
  function Distances(s: seq<Point>, p: Point): (r: seq<real>)
    ensures |r| == |s|
    ensures forall i :: 0 <= i < |s| ==> r[i] == SquaredDistance(s[i], p)
  {
    seq(|s|, i requires 0 <= i < |s| => SquaredDistance(s[i], p))
  }

  /**
   * `.mini`: an index of a least element, nothing for an empty input. Only
   * this much is promised; the tie-break is not.
   */
  function Mini(xs: seq<real>): (r: Option<nat>)
    ensures r.None? <==> |xs| == 0
    ensures r.Some? ==> r.value < |xs| && forall j :: 0 <= j < |xs| ==> xs[r.value] <= xs[j]
  {
    if |xs| == 0 then None
    else
      match Mini(xs[..|xs| - 1])
      case None => Some(0)
      case Some(k) => if xs[|xs| - 1] < xs[k] then Some(|xs| - 1) else Some(k)
  }

  /** The nearest point's index, as every lookup computes it. */
  function Nearest(s: seq<Point>, p: Point): (r: Option<nat>)
    ensures r.None? <==> |s| == 0
    ensures r.Some? ==> IsNearest(s, p, r.value)
  {
    Mini(Distances(s, p))
  }

  /**
   * The fold of `max(by:)` over `s[..n]` with the comparator `$0.x > $1.x`:
   * the running result is replaced only by a point of strictly smaller x, so
   * it ends on the first point of least x.
   */
  function MinXIndex(s: seq<Point>, n: nat): (k: nat)
    requires 0 < n <= |s|
    ensures k < n
    ensures forall j :: 0 <= j < n ==> s[k].x <= s[j].x
    ensures forall j :: 0 <= j < k ==> s[k].x < s[j].x
  {
    if n == 1 then 0
    else
      var k := MinXIndex(s, n - 1);
      if s[k].x > s[n - 1].x then n - 1 else k
  }

  /**
   * The fold of `max(by:)` over `s[..n]` with the comparator `$0.x <= $1.x`:
   * the running result is replaced by every point of x at least as large, so
   * it ends on the last point of greatest x.
   */
  function MaxXIndex(s: seq<Point>, n: nat): (k: nat)
    requires 0 < n <= |s|
    ensures k < n
    ensures forall j :: 0 <= j < n ==> s[j].x <= s[k].x
    ensures forall j :: k < j < n ==> s[j].x < s[k].x
  {
    if n == 1 then 0
    else
      var k := MaxXIndex(s, n - 1);
      if s[k].x <= s[n - 1].x then n - 1 else k
  }

  /** A series, the points drawn for it and the transform that produced them. */
  datatype DataRender = DataRender(input: seq<real>, output: seq<Point>, dataType: RenderDataType) {

    /** `DataRender.empty`: every lookup on it comes back empty-handed. */
    static function Empty(): (r: DataRender)
      ensures r.MinPoint().None? && r.MaxPoint().None?
      ensures forall p :: r.IndexWithPoint(p).None? && r.DataIndexWithPoint(p).None?
    {
      DataRender([], [], Discrete)
    }

    /** `init(points:)`. */
    static function FromPoints(points: seq<Point>): (r: DataRender)
      ensures r.output == points && r.input == [] && r.dataType == Discrete
    {
      DataRender([], points, Discrete)
    }

    /** `init(data:)`. */
    static function FromData(data: seq<real>): (r: DataRender)
      ensures r.input == data && r.output == [] && r.dataType == Discrete
    {
      DataRender(data, [], Discrete)
    }

    /** `copy`: a record equal to this one in every field. */
    function Copy(): (r: DataRender)
      ensures r == this
    {
      DataRender(input, output, dataType)
    }

    /** `minPoint`: the first point of least x, nothing when there are no points. */
    function MinPoint(): (r: Option<Point>)
      ensures r.None? <==> |output| == 0
      ensures r.Some? ==>
        exists k :: (0 <= k < |output| && output[k] == r.value &&
          (forall j :: 0 <= j < |output| ==> output[k].x <= output[j].x) &&
          (forall j :: 0 <= j < k ==> output[k].x < output[j].x))
    {
      if |output| == 0 then None else Some(output[MinXIndex(output, |output|)])
    }

    /** `maxPoint`: the last point of greatest x, nothing when there are no points. */
    function MaxPoint(): (r: Option<Point>)
      ensures r.None? <==> |output| == 0
      ensures r.Some? ==>
        exists k :: (0 <= k < |output| && output[k] == r.value &&
          (forall j :: 0 <= j < |output| ==> output[j].x <= output[k].x) &&
          (forall j :: k < j < |output| ==> output[j].x < output[k].x))
    {
      if |output| == 0 then None else Some(output[MaxXIndex(output, |output|)])
    }

    /** `point(withIndex:)`: asserts the index is in range, never answers nil. */
    function PointWithIndex(index: int): (r: Option<Point>)
      requires 0 <= index < |output|
      ensures r.Some? && r.value == output[index]
    {
      Some(output[index])
    }

    /** `index(withPoint:)`: the nearest point's index, for every transform. */
    function IndexWithPoint(p: Point): (r: Option<nat>)
      ensures r.None? <==> |output| == 0
      ensures r.Some? ==> IsNearest(output, p, r.value)
    {
      match dataType
      case Discrete => Nearest(output, p)
      case Stadistics(_) => Nearest(output, p)
      case Simplify(_, _) => Nearest(output, p)
      case Regress(_) => Nearest(output, p)
    }

    /** The index `data(withPoint:)` reads the series at lies within the series. */
    predicate DataLookupInBounds(p: Point) {
      match dataType
      case Stadistics(_) => var k := Nearest(output, p); k.Some? ==> k.value < |input|
      case _ => var k := FirstIndexOf(output, p); k.Some? ==> k.value < |input|
    }

    /**
     * `data(withPoint:)`: the sample of the first point equal to `p` (nothing
     * when none is), or for moving statistics the sample of the nearest point.
     */
    function DataWithPoint(p: Point): (r: Option<real>)
      requires DataLookupInBounds(p)
      ensures !dataType.Stadistics? ==> (r.Some? <==> p in output)
      ensures !dataType.Stadistics? ==>
        forall k :: IsFirstMatch(output, p, k) ==> k < |input| && r == Some(input[k])
      ensures dataType.Stadistics? ==> (r.Some? <==> |output| > 0)
      ensures dataType.Stadistics? && r.Some? ==>
        exists k :: IsNearest(output, p, k) && k < |input| && r.value == input[k]
    {
      match dataType
      case Discrete => DataAtFirstMatch(p)
      case Stadistics(_) =>
        (match Nearest(output, p)
         case Some(k) => Some(input[k])
         case None => None)
      case Simplify(_, _) => DataAtFirstMatch(p)
      case Regress(_) => DataAtFirstMatch(p)
    }

    function DataAtFirstMatch(p: Point): (r: Option<real>)
      requires !dataType.Stadistics? && DataLookupInBounds(p)
      ensures r.Some? <==> p in output
      ensures forall k :: IsFirstMatch(output, p, k) ==> k < |input| && r == Some(input[k])
    {
      match FirstIndexOf(output, p)
      case Some(k) =>
        FirstMatchUnique(output, p, k);
        Some(input[k])
      case None => None
    }

    /**
     * `dataIndex(withPoint:)`: the first index of a point equal to `p`, else
     * the nearest index; for moving statistics the nearest index directly.
     * Either way the answer is a nearest index, missing only when there are
     * no points.
     */
    function DataIndexWithPoint(p: Point): (r: Option<nat>)
      ensures r.None? <==> |output| == 0
      ensures r.Some? ==> IsNearest(output, p, r.value)
      ensures !dataType.Stadistics? && p in output ==> r.Some? && IsFirstMatch(output, p, r.value)
    {
      match dataType
      case Discrete => FirstMatchElseNearest(p)
      case Stadistics(_) =>
        (match IndexWithPoint(p)
         case Some(k) => Some(k)
         case None => Nearest(output, p))
      case Simplify(_, _) => FirstMatchElseNearest(p)
      case Regress(_) => FirstMatchElseNearest(p)
    }

    function FirstMatchElseNearest(p: Point): (r: Option<nat>)
      ensures r.None? <==> |output| == 0
      ensures r.Some? ==> IsNearest(output, p, r.value)
      ensures p in output ==> r.Some? && IsFirstMatch(output, p, r.value)
    {
      match FirstIndexOf(output, p)
      case Some(k) =>
        ExactMatchIsNearest(output, p, k);
        Some(k)
      case None => Nearest(output, p)
    }
  }

  lemma FirstMatchUnique(s: seq<Point>, p: Point, k: int)
    requires IsFirstMatch(s, p, k)
    ensures forall j :: IsFirstMatch(s, p, j) ==> j == k
  {
  }

  /** A point equal to the query is at distance 0, so it is a nearest one. */
  lemma ExactMatchIsNearest(s: seq<Point>, p: Point, k: int)
    requires 0 <= k < |s| && s[k] == p
    ensures IsNearest(s, p, k)
  {
    assert SquaredDistance(s[k], p) == 0.0;
    forall j | 0 <= j < |s|
      ensures SquaredDistance(s[k], p) <= SquaredDistance(s[j], p)
    {
      assert SquaredDistance(s[j], p) >= 0.0;
    }
  }

  /** Swift's `/` on integers: the quotient truncated toward zero. */
  function TruncatingQuotient(a: int, b: int): (q: int)
    requires b != 0
    ensures (a >= 0) == (b > 0) ==> q >= 0
    ensures a == 0 ==> q == 0
  {
    var m := if b > 0 then b else -b;
    var k := if a >= 0 then a / m else -((-a) / m);
    if b > 0 then k else -k
  }

  /**
   * Swift's `%` on integers: the remainder takes the sign of the dividend,
   * lies strictly within the divisor's magnitude, and completes Swift's
   * quotient: a == (a / b) * b + a % b.
   */
  function TruncatingRemainder(a: int, b: int): (r: int)
    requires b != 0
    ensures a >= 0 ==> 0 <= r < (if b > 0 then b else -b)
    ensures a <= 0 ==> -(if b > 0 then b else -b) < r <= 0
    ensures a == TruncatingQuotient(a, b) * b + r
  {
    var m := if b > 0 then b else -b;
    if a >= 0 then a % m else -((-a) % m)
  }

  /**
   * The section of a data index: floor(index / (count / sections)) modulo
   * the number of sections, computed over the reals.
   */
  function SectionOf(dataIndex: nat, count: nat, numberOfSections: int): (r: int)
    requires count > 0 && numberOfSections != 0
    ensures -(if numberOfSections > 0 then numberOfSections else -numberOfSections) < r
    ensures r < (if numberOfSections > 0 then numberOfSections else -numberOfSections)
    ensures dataIndex == 0 ==> r == 0
  {
    var pointPerSectionRelation := (count as real) / (numberOfSections as real);
    TruncatingRemainder(((dataIndex as real) / pointPerSectionRelation).Floor, numberOfSections)
  }

  /** A render: its index in the manager, its record and its layers. */
  class BaseRender {
    var index: int
    var data: DataRender
    var layers: seq<Layer>

    /** `init(index:)`. */
    constructor (index: int)
      ensures this.index == index && data == DataRender.Empty() && layers == []
    {
      this.index := index;
      data := DataRender.Empty();
      layers := [];
    }

    /** `init()`. */
    constructor Default()
      ensures index == 0 && data == DataRender.Empty() && layers == []
    {
      index := 0;
      data := DataRender.Empty();
      layers := [];
    }

    /** `isEmpty`: neither samples nor points. */
    predicate IsEmpty()
      reads this
      ensures IsEmpty() <==> data.input == [] && data.output == []
    {
      |data.input| == 0 && |data.output| == 0
    }

    /**
     * `allOtherLayers(layer:)`: nothing when `layer` is not one of the
     * render's layers, else every other layer, each as often as the render
     * holds it, in order.
     */
    function AllOtherLayers(layer: Layer): (r: seq<Layer>)
      reads this
      ensures layer !in layers ==> r == []
      ensures layer in layers ==> layer !in r && |r| < |layers|
      ensures layer in layers ==> forall l :: l in layers && l != layer <==> l in r
      ensures layer in layers ==> multiset(r)[layer := multiset(layers)[layer]] == multiset(layers)
    {
      if layer !in layers then [] else Without(layers, layer)
    }

    /**
     * `makePoints(_:)`: the points a fresh generator draws for the render's
     * samples. Its limits are never updated, so both are 0 and the line lies
     * flat on the bottom inset, evenly spaced from x = 0.
     */
    method MakePoints(size: Size) returns (pts: seq<Point>)
      requires size != ZeroSize
      ensures |pts| == |data.input|
      ensures forall i :: 0 <= i < |pts| ==>
        pts[i] == Point(size.width * i as real / |pts| as real, size.height - DefaultInsets.bottom)
    {
      var generator := new DiscreteScaledPointsGenerator();
      pts := generator.MakePoints(data.input, size);
      if |pts| > 0 {
        XLayout(data.input, size, generator.insets, 0.0, 0.0, pts);
      }
      BottomLine(data.input, size, generator.insets, 0.0, 0.0, pts);
    }

    /**
     * `sectionIndex(withPoint:numberOfSections:)`. The division and the
     * remainder trap unless there are samples and sections whenever a data
     * index is found.
     */
    function SectionIndex(point: Point, numberOfSections: int): (r: int)
      reads this
      requires data.DataIndexWithPoint(point).Some? ==> |data.input| > 0 && numberOfSections != 0
      ensures data.DataIndexWithPoint(point).None? <==> |data.output| == 0
      ensures |data.output| == 0 ==> r == BadIndex
      ensures |data.output| > 0 && numberOfSections > 0 ==> 0 <= r < numberOfSections
      ensures (data.DataIndexWithPoint(point).Some? && data.DataIndexWithPoint(point).value < |data.input|
        && numberOfSections > 0) ==>
        r == Proportional(data.DataIndexWithPoint(point).value, |data.input|, numberOfSections)
    {
      if data.DataIndexWithPoint(point).None? then BadIndex
      else
        SectionInRange(data.DataIndexWithPoint(point).value, |data.input|, numberOfSections);
        SectionClosedForm(data.DataIndexWithPoint(point).value, |data.input|, numberOfSections);
        SectionOf(data.DataIndexWithPoint(point).value, |data.input|, numberOfSections)
    }
  }

  /**
   * `s` with every copy of `x` filtered out: every other layer keeps its
   * number of copies, and (`WithoutDistributes`) its order.
   */
  function Without(s: seq<Layer>, x: Layer): (r: seq<Layer>)
    ensures x !in r
    ensures forall l :: l in s && l != x <==> l in r
    ensures x in s ==> |r| < |s|
    ensures |r| <= |s|
    ensures x !in s ==> r == s
    ensures multiset(r)[x := multiset(s)[x]] == multiset(s)
  {
    if |s| == 0 then []
    else
      assert s == [s[0]] + s[1..];
      if s[0] == x then Without(s[1..], x)
      else [s[0]] + Without(s[1..], x)
  }

  /** Filtering a concatenation filters each part and keeps them in order. */
  lemma {:induction false} WithoutDistributes(a: seq<Layer>, b: seq<Layer>, x: Layer)
    ensures Without(a + b, x) == Without(a, x) + Without(b, x)
  {
    if |a| > 0 {
      assert (a + b)[1..] == a[1..] + b;
      WithoutDistributes(a[1..], b, x);
    } else {
      assert a + b == b;
    }
  }

  /** floor(index * sections / count): the section of an index by plain proportion. */
  function Proportional(dataIndex: nat, count: nat, numberOfSections: int): int
    requires count > 0
  {
    ((dataIndex as real) * (numberOfSections as real) / (count as real)).Floor
  }

  lemma ProportionalIs(dataIndex: nat, count: nat, numberOfSections: int)
    requires count > 0
    ensures Proportional(dataIndex, count, numberOfSections)
      == ((dataIndex as real) * (numberOfSections as real) / (count as real)).Floor
  {
  }

  /** For an index inside the series and positive sections, the closed form of `SectionWithinSeries`. */
  lemma SectionClosedForm(dataIndex: nat, count: nat, numberOfSections: int)
    requires count > 0 && numberOfSections != 0
    ensures dataIndex < count && numberOfSections > 0 ==>
      SectionOf(dataIndex, count, numberOfSections) == Proportional(dataIndex, count, numberOfSections)
  {
    if dataIndex < count && numberOfSections > 0 {
      SectionWithinSeries(dataIndex, count, numberOfSections);
      ProportionalIs(dataIndex, count, numberOfSections);
    }
  }

  /** With a positive number of sections every data index has a section in [0, sections). */
  lemma SectionInRange(dataIndex: nat, count: nat, numberOfSections: int)
    requires count > 0 && numberOfSections != 0
    ensures numberOfSections > 0 ==> 0 <= SectionOf(dataIndex, count, numberOfSections) < numberOfSections
  {
    if numberOfSections > 0 {
      var ratio := (count as real) / (numberOfSections as real);
      assert ratio > 0.0;
      assert (dataIndex as real) / ratio >= 0.0;
    }
  }

  /**
   * A data index inside the series needs no wrap-around: its section is
   * floor(index * sections / count), in [0, sections).
   */
  lemma SectionWithinSeries(dataIndex: nat, count: nat, numberOfSections: int)
    requires dataIndex < count && numberOfSections > 0
    ensures SectionOf(dataIndex, count, numberOfSections)
      == ((dataIndex as real) * (numberOfSections as real) / (count as real)).Floor
    ensures 0 <= SectionOf(dataIndex, count, numberOfSections) < numberOfSections
  {
    QuotientByRatio(dataIndex as real, count as real, numberOfSections as real);
    var q := (dataIndex as real) / ((count as real) / (numberOfSections as real));
    FloorBelow(q, numberOfSections);
    RemainderOfSmall(q.Floor, numberOfSections);
  }

  lemma FloorBelow(x: real, k: int)
    requires 0.0 <= x < k as real
    ensures 0 <= x.Floor < k
  {
  }

  /** The remainder of a value already in [0, b) is that value. */
  lemma RemainderOfSmall(a: int, b: int)
    requires 0 <= a < b
    ensures TruncatingRemainder(a, b) == a
  {
  }

  /** Dividing by c / n is multiplying by n / c; below c that stays below n. */
  lemma QuotientByRatio(d: real, c: real, n: real)
    requires c > 0.0 && n > 0.0 && 0.0 <= d < c
    ensures d / (c / n) == d * n / c
    ensures 0.0 <= d / (c / n) < n
  {
    var r := c / n;
    assert r * n == c;
    assert r > 0.0;
    var q := d / r;
    assert q * r == d;
    assert q * c == d * n by {
      assert q * c == q * (r * n);
      assert q * (r * n) == (q * r) * n;
    }
    var e := d * n / c;
    assert e * c == d * n;
    assert (e - q) * c == 0.0;
    assert q >= 0.0;
    assert (n - q) * r == c - d;
  }

  /** The points of each render, in order (`renders.map { $0.data.points }`). */
  function OutputsOf(rs: seq<BaseRender>): (r: seq<seq<Point>>)
    reads rs
    ensures |r| == |rs|
    ensures forall i :: 0 <= i < |rs| ==> r[i] == rs[i].data.output
  {
    if |rs| == 0 then [] else [rs[0].data.output] + OutputsOf(rs[1..])
  }

  /** The samples of each render, in order (`renders.map { $0.data.data }`). */
  function InputsOf(rs: seq<BaseRender>): (r: seq<seq<real>>)
    reads rs
    ensures |r| == |rs|
    ensures forall i :: 0 <= i < |rs| ==> r[i] == rs[i].data.input
  {
    if |rs| == 0 then [] else [rs[0].data.input] + InputsOf(rs[1..])
  }

  /** `renders.reduce(acc) { $0 + [$1.layers] }`: one more list per render. */
  function LayersFold(acc: seq<seq<Layer>>, rs: seq<BaseRender>): (r: seq<seq<Layer>>)
    reads rs
    ensures |r| == |acc| + |rs|
    decreases |rs|
  {
    if |rs| == 0 then acc else LayersFold(acc + [rs[0].layers], rs[1..])
  }

  /** The fold appends each render's layers, in order, after the initial value. */
  lemma {:induction false} LayersFoldAppends(acc: seq<seq<Layer>>, rs: seq<BaseRender>)
    ensures |LayersFold(acc, rs)| == |acc| + |rs|
    ensures LayersFold(acc, rs)[..|acc|] == acc
    ensures forall i :: 0 <= i < |rs| ==> LayersFold(acc, rs)[|acc| + i] == rs[i].layers
    decreases |rs|
  {
    if |rs| > 0 {
      LayersFoldAppends(acc + [rs[0].layers], rs[1..]);
      var r := LayersFold(acc, rs);
      assert r == LayersFold(acc + [rs[0].layers], rs[1..]);
      assert r[..|acc| + 1] == acc + [rs[0].layers];
      assert r[..|acc|] == (acc + [rs[0].layers])[..|acc|];
      forall i | 0 <= i < |rs|
        ensures r[|acc| + i] == rs[i].layers
      {
        if i == 0 {
          assert r[|acc|] == r[..|acc| + 1][|acc|];
        } else {
          assert r[|acc + [rs[0].layers]| + (i - 1)] == rs[1..][i - 1].layers;
        }
      }
    }
  }

  /** Concatenation (`flatMap { $0 }`): empty exactly when every part is. */
  function Concat<T>(ss: seq<seq<T>>): (r: seq<T>)
    ensures r == [] <==> forall i :: 0 <= i < |ss| ==> ss[i] == []
  {
    if |ss| == 0 then []
    else
      assert forall i :: 1 <= i < |ss| ==> ss[i] == ss[1..][i - 1];
      ss[0] + Concat(ss[1..])
  }

  /** Adding a part at the end appends its elements after all the others. */
  lemma {:induction false} ConcatAppend<T>(ss: seq<seq<T>>, t: seq<T>)
    ensures Concat(ss + [t]) == Concat(ss) + t
  {
    if |ss| == 0 {
      assert ss + [t] == [t];
    } else {
      assert (ss + [t])[1..] == ss[1..] + [t];
      ConcatAppend(ss[1..], t);
    }
  }

  /** An element is in the concatenation exactly when it is in one of the parts. */
  lemma {:induction false} ConcatMembers<T>(ss: seq<seq<T>>)
    ensures forall x :: x in Concat(ss) <==> exists i :: 0 <= i < |ss| && x in ss[i]
  {
    if |ss| > 0 {
      ConcatMembers(ss[1..]);
      forall x
        ensures x in Concat(ss) <==> exists i :: 0 <= i < |ss| && x in ss[i]
      {
        if x in Concat(ss[1..]) {
          var i :| 0 <= i < |ss[1..]| && x in ss[1..][i];
          assert x in ss[i + 1];
        }
        if exists i :: 0 <= i < |ss| && x in ss[i] {
          var i :| 0 <= i < |ss| && x in ss[i];
          if i > 0 {
            assert x in ss[1..][i - 1];
          }
        }
      }
    }
  }

  /** The length of a concatenation is the sum of the parts' lengths. */
  function TotalLength<T>(ss: seq<seq<T>>): nat {
    if |ss| == 0 then 0 else |ss[0]| + TotalLength(ss[1..])
  }

  lemma {:induction false} ConcatLength<T>(ss: seq<seq<T>>)
    ensures |Concat(ss)| == TotalLength(ss)
  {
    if |ss| > 0 {
      ConcatLength(ss[1..]);
    }
  }

  /**
   * The manager's ordered list of renders. One explicit manager stands for
   * the shared instance the source's getters and setters go through.
   */
  class RenderManager {
    var renders: seq<BaseRender>

    /** Distinct renders, each carrying its own position as its index. */
    ghost predicate Valid()
      reads this, renders
    {
      && (forall i, j :: 0 <= i < j < |renders| ==> renders[i] != renders[j])
      && (forall i :: 0 <= i < |renders| ==> renders[i].index == i)
    }

    /** `init()`: the polyline, points and selected-point renders. */
    constructor ()
      ensures Valid()
      ensures |renders| == 3
      ensures forall i :: 0 <= i < 3 ==> fresh(renders[i]) && renders[i].data == DataRender.Empty() && renders[i].layers == []
    {
      var rs := ConfigureRenders();
      renders := rs;
    }

    /** `configureRenders()`: the three default renders at indices 0, 1 and 2. */
    static method ConfigureRenders() returns (rs: seq<BaseRender>)
      ensures |rs| == 3
      ensures rs[0].index == RenderIdent.Polyline.RawValue()
      ensures rs[1].index == RenderIdent.Points.RawValue()
      ensures rs[2].index == RenderIdent.SelectedPoint.RawValue()
      ensures forall i :: 0 <= i < 3 ==> fresh(rs[i]) && rs[i].data == DataRender.Empty() && rs[i].layers == []
      ensures forall i, j :: 0 <= i < j < 3 ==> rs[i] != rs[j]
    {
      var polyline := new BaseRender(RenderIdent.Polyline.RawValue());
      var points := new BaseRender(RenderIdent.Points.RawValue());
      var selectedPoint := new BaseRender(RenderIdent.SelectedPoint.RawValue());
      rs := [polyline, points, selectedPoint];
    }

    /**
     * `update(_:)`: grows the list to `numberOfRenders`, inserting a fresh
     * render at each position from the current count on; an insertion at
     * the current count is an append, so each new render's index is its
     * position.
     */
    method Update(numberOfRenders: int)
      requires Valid()
      requires numberOfRenders >= |renders|
      modifies this
      ensures Valid()
      ensures |renders| == numberOfRenders
      ensures renders[..|old(renders)|] == old(renders)
      ensures forall i :: |old(renders)| <= i < numberOfRenders ==>
        fresh(renders[i]) && renders[i].data == DataRender.Empty() && renders[i].layers == []
    {
      var idx := |renders|;
      while idx < numberOfRenders
        invariant |old(renders)| <= idx <= numberOfRenders
        invariant |renders| == idx
        invariant renders[..|old(renders)|] == old(renders)
        invariant forall i :: |old(renders)| <= i < idx ==>
          fresh(renders[i]) && renders[i].data == DataRender.Empty() && renders[i].layers == []
        invariant Valid()
      {
        var render := new BaseRender(idx);
        renders := renders[..idx] + [render] + renders[idx..];
        idx := idx + 1;
      }
    }

    /** The `points` getter. */
    function Points(): (r: seq<seq<Point>>)
      reads this, renders
      ensures |r| == |renders|
      ensures forall i :: 0 <= i < |renders| ==> r[i] == renders[i].data.output
    {
      OutputsOf(renders)
    }

    /** The `data` getter. */
    function Data(): (r: seq<seq<real>>)
      reads this, renders
      ensures |r| == |renders|
      ensures forall i :: 0 <= i < |renders| ==> r[i] == renders[i].data.input
    {
      InputsOf(renders)
    }

    /**
     * The `layers` getter folds from `[[]]`, not `[]`: one more list than
     * there are renders, the first one empty, then each render's layers.
     */
    function Layers(): (r: seq<seq<Layer>>)
      reads this, renders
      ensures |r| == |renders| + 1
      ensures r[0] == []
      ensures forall i :: 0 <= i < |renders| ==> r[i + 1] == renders[i].layers
    {
      LayersFoldAppends([[]], renders);
      LayersFold([[]], renders)
    }

    /** `allPointsRender`: every render's points, concatenated in order. */
    function AllPointsRender(): (r: seq<Point>)
      reads this, renders
      ensures |r| == TotalLength(Points())
      ensures forall p :: p in r <==> exists i :: 0 <= i < |renders| && p in renders[i].data.output
    {
      ConcatMembers(Points());
      ConcatLength(Points());
      Concat(Points())
    }

    /** `allDataPointsRender`: every render's samples, concatenated in order. */
    function AllDataPointsRender(): (r: seq<real>)
      reads this, renders
      ensures |r| == TotalLength(Data())
      ensures forall v :: v in r <==> exists i :: 0 <= i < |renders| && v in renders[i].data.input
    {
      ConcatMembers(Data());
      ConcatLength(Data());
      Concat(Data())
    }

    /**
     * The `points` setter: render i gets the points `newValue[i]` and keeps
     * its samples and transform.
     */
    method SetPoints(newValue: seq<seq<Point>>)
      requires Valid()
      requires |newValue| >= |renders|
      modifies renders
      ensures Valid()
      ensures forall i :: 0 <= i < |renders| ==>
        renders[i].data == DataRender(old(renders[i].data.input), newValue[i], old(renders[i].data.dataType))
      ensures forall i :: 0 <= i < |renders| ==> renders[i].layers == old(renders[i].layers)
      ensures Points() == newValue[..|renders|]
      ensures Data() == old(Data())
    {
      var i := 0;
      while i < |renders|
        invariant 0 <= i <= |renders|
        invariant forall j :: 0 <= j < i ==>
          renders[j].data == DataRender(old(renders[j].data.input), newValue[j], old(renders[j].data.dataType))
        invariant forall j :: i <= j < |renders| ==> renders[j].data == old(renders[j].data)
        invariant forall j :: 0 <= j < |renders| ==>
          renders[j].index == old(renders[j].index) && renders[j].layers == old(renders[j].layers)
      {
        var render := renders[i];
        render.data := DataRender(render.data.input, newValue[i], render.data.dataType);
        i := i + 1;
      }
    }

    /**
     * The `data` setter: render i gets the samples `newValue[i]` and keeps
     * its points and transform.
     */
    method SetData(newValue: seq<seq<real>>)
      requires Valid()
      requires |newValue| >= |renders|
      modifies renders
      ensures Valid()
      ensures forall i :: 0 <= i < |renders| ==>
        renders[i].data == DataRender(newValue[i], old(renders[i].data.output), old(renders[i].data.dataType))
      ensures forall i :: 0 <= i < |renders| ==> renders[i].layers == old(renders[i].layers)
      ensures Data() == newValue[..|renders|]
      ensures Points() == old(Points())
    {
      var i := 0;
      while i < |renders|
        invariant 0 <= i <= |renders|
        invariant forall j :: 0 <= j < i ==>
          renders[j].data == DataRender(newValue[j], old(renders[j].data.output), old(renders[j].data.dataType))
        invariant forall j :: i <= j < |renders| ==> renders[j].data == old(renders[j].data)
        invariant forall j :: 0 <= j < |renders| ==>
          renders[j].index == old(renders[j].index) && renders[j].layers == old(renders[j].layers)
      {
        var render := renders[i];
        render.data := DataRender(newValue[i], render.data.output, render.data.dataType);
        i := i + 1;
      }
    }

    /**
     * The `layers` setter: render i gets the layers `newValue[i]`. Reading
     * the layers back yields an empty list followed by them, so with one list
     * per render the getter never returns what was set.
     */
    method SetLayers(newValue: seq<seq<Layer>>)
      requires Valid()
      requires |newValue| >= |renders|
      modifies renders
      ensures Valid()
      ensures forall i :: 0 <= i < |renders| ==>
        renders[i].layers == newValue[i] && renders[i].data == old(renders[i].data)
      ensures Layers() == [[]] + newValue[..|renders|]
      ensures |newValue| == |renders| ==> Layers() != newValue
    {
      var i := 0;
      while i < |renders|
        invariant 0 <= i <= |renders|
        invariant forall j :: 0 <= j < i ==> renders[j].layers == newValue[j]
        invariant forall j :: 0 <= j < |renders| ==>
          renders[j].index == old(renders[j].index) && renders[j].data == old(renders[j].data)
      {
        var render := renders[i];
        render.layers := newValue[i];
        i := i + 1;
      }
      assert |Layers()| == |newValue| + 1 || |newValue| != |renders|;
    }
  }
}
