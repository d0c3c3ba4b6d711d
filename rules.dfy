/**
 * Rule marks: the rounded values shown on the chart's leading rule, laid out
 * evenly from the generator's minimum to its maximum, and the points they are
 * drawn at.
 */
module Rules {
  import opened Geometry
  import opened ScaledPoints
  import opened Render

  /** `round`: to the nearest integer, halfway cases away from zero; the sign is kept. */
  function Round(x: real): (r: int)
    ensures x >= 0.0 ==> r >= 0
    ensures x <= 0.0 ==> r <= 0
  {
    if x >= 0.0 then (x + 0.5).Floor else -((-x + 0.5).Floor)
  }

  /** `round` lands within 0.5 of its argument, halfway cases away from zero. */
  lemma RoundNearest(x: real)
    ensures x >= 0.0 ==> x - 0.5 < Round(x) as real <= x + 0.5
    ensures x < 0.0 ==> x - 0.5 <= Round(x) as real < x + 0.5
  {
  }

  /** Rounding never reverses the order of two values. */
  lemma RoundMonotone(x: real, y: real)
    requires x <= y
    ensures Round(x) <= Round(y)
  {
    if x >= 0.0 || y < 0.0 {
      FloorMonotone(if x >= 0.0 then x + 0.5 else -y + 0.5, if x >= 0.0 then y + 0.5 else -x + 0.5);
    }
  }

  lemma FloorMonotone(a: real, b: real)
    requires a <= b
    ensures a.Floor <= b.Floor
  {
  }

  /** An integral value rounds to itself. */
  lemma RoundIntegral(k: int)
    ensures Round(k as real) == k
  {
  }

  /**
   * The mark `appendRuleMark` records for a value: above 10000 the nearest
   * multiple of 1000, otherwise the nearest integer; the sign is kept.
   */
  function Mark(value: real): (m: int)
    ensures value >= 0.0 ==> m >= 0
    ensures value <= 0.0 ==> m <= 0
  {
    if value > 10000.0 then Round(value / 1000.0) * 1000 else Round(value)
  }

  /**
   * Above 10000 a mark is a multiple of 1000 within 500 of the value,
   * otherwise within 0.5 of it.
   */
  lemma MarkNearest(value: real)
    ensures value > 10000.0 ==> Mark(value) % 1000 == 0 && value - 500.0 <= Mark(value) as real <= value + 500.0
    ensures value <= 10000.0 ==> value - 0.5 <= Mark(value) as real <= value + 0.5
  {
    if value > 10000.0 {
      var k := Round(value / 1000.0);
      RoundNearest(value / 1000.0);
      assert (k * 1000) as real == (k as real) * 1000.0;
    } else {
      RoundNearest(value);
    }
  }

  /** Marks never decrease as the value grows, across the 10000 threshold too. */
  lemma MarkMonotone(v: real, w: real)
    requires v <= w
    ensures Mark(v) <= Mark(w)
  {
    if v > 10000.0 {
      RoundMonotone(v / 1000.0, w / 1000.0);
    } else if w > 10000.0 {
      RoundMonotone(v, 10000.0);
      RoundIntegral(10000);
      RoundMonotone(10.0, w / 1000.0);
      RoundIntegral(10);
    } else {
      RoundMonotone(v, w);
    }
  }

  /** `Int(x)` on a floating value: truncation toward zero. */
  function Trunc(x: real): (r: int)
    ensures x >= 0.0 ==> r as real <= x < r as real + 1.0
    ensures x < 0.0 ==> r as real - 1.0 < x <= r as real
  {
    if x >= 0.0 then x.Floor else -((-x).Floor)
  }

  /**
   * The values `internalCalcRules` rounds: `count` values stepping evenly from
   * `lo` by (hi - lo) / count, then `hi` itself.
   */
  function RuleValues(lo: real, hi: real, count: nat): (r: seq<real>)
    ensures |r| == count + 1
    ensures r[count] == hi
    ensures count > 0 ==> r[0] == lo
  {
    if count == 0 then [hi]
    else
      var step := (hi - lo) / count as real;
      seq(count, i requires 0 <= i < count => lo + step * i as real) + [hi]
  }

  /** The i-th value before the maximum is i steps above the minimum. */
  lemma RuleValueAt(lo: real, hi: real, count: nat, i: nat)
    requires i < count
    ensures RuleValues(lo, hi, count)[i] == lo + ((hi - lo) / count as real) * i as real
  {
  }

  /** `Mark` applied to every value, as reals. */
  function MarksOf(values: seq<real>): (r: seq<real>)
    ensures |r| == |values|
  {
    seq(|values|, i requires 0 <= i < |values| => Mark(values[i]) as real)
  }

  /** The i-th mark is the mark of the i-th value. */
  lemma MarksOfAt(values: seq<real>, i: nat)
    requires i < |values|
    ensures MarksOf(values)[i] == Mark(values[i]) as real
  {
  }

  /** The N + 2 marks `internalCalcRules` appends for `numberOfRuleMarks` truncated to N. */
  function RuleMarks(n: int, lo: real, hi: real): (r: seq<real>)
    requires n >= -1
    ensures |r| == n + 2
  {
    MarksOf(RuleValues(lo, hi, n + 1))
  }

  /**
   * N + 2 marks: the rounded minimum first (when N >= 0), the rounded
   * maximum last.
   */
  lemma RuleMarksEnds(n: int, lo: real, hi: real)
    requires n >= -1
    ensures |RuleMarks(n, lo, hi)| == n + 2
    ensures n >= 0 ==> RuleMarks(n, lo, hi)[0] == Mark(lo) as real
    ensures RuleMarks(n, lo, hi)[n + 1] == Mark(hi) as real
  {
  }

  /** One more step is higher; all steps but the last stay below the range. */
  lemma StepProduct(step: real, count: nat, i: nat)
    requires step > 0.0 && i < count
    ensures step * i as real < step * (i + 1) as real
    ensures step * (count - 1) as real < step * count as real
  {
    assert step * (i + 1) as real == step * i as real + step;
    assert step * count as real == step * (count - 1) as real + step;
  }

  lemma StepTimesCount(range: real, count: nat)
    requires count > 0
    ensures (range / count as real) * count as real == range
    ensures range > 0.0 ==> range / count as real > 0.0
  {
  }

  /** Over a positive range the values before rounding strictly increase. */
  lemma {:induction false} RuleValuesIncrease(lo: real, hi: real, count: nat)
    requires lo < hi
    ensures forall i :: 0 < i < count + 1 ==> RuleValues(lo, hi, count)[i - 1] < RuleValues(lo, hi, count)[i]
  {
    var r := RuleValues(lo, hi, count);
    if count > 0 {
      var step := (hi - lo) / count as real;
      StepTimesCount(hi - lo, count);
      forall i | 0 < i < count + 1
        ensures r[i - 1] < r[i]
      {
        StepProduct(step, count, i - 1);
        RuleValueAt(lo, hi, count, i - 1);
        if i < count {
          RuleValueAt(lo, hi, count, i);
        }
      }
    }
  }

  /** Over a positive range the marks never decrease. */
  lemma {:induction false} RuleMarksNonDecreasing(n: int, lo: real, hi: real)
    requires n >= -1 && lo < hi
    ensures forall i, j :: 0 <= i <= j < n + 2 ==> RuleMarks(n, lo, hi)[i] <= RuleMarks(n, lo, hi)[j]
  {
    var values := RuleValues(lo, hi, n + 1);
    RuleValuesIncrease(lo, hi, n + 1);
    forall i, j | 0 <= i <= j < n + 2
      ensures Mark(values[i]) <= Mark(values[j])
    {
      ValuesOrdered(values, i, j);
      MarkMonotone(values[i], values[j]);
    }
  }

  /**
   * A non-zero range can be negative (a `minimum` override above the
   * `maximum`); the marks then decrease.
   */
  lemma RuleMarksNegativeRange()
    ensures RuleMarks(0, 10.0, 5.0) == [10.0, 5.0]
  {
    var values := RuleValues(10.0, 5.0, 1);
    assert values == [10.0, 5.0];
    assert Mark(10.0) == 10 && Mark(5.0) == 5;
  }

  lemma {:induction false} ValuesOrdered(values: seq<real>, i: nat, j: nat)
    requires i <= j < |values|
    requires forall k :: 0 < k < |values| ==> values[k - 1] < values[k]
    ensures values[i] <= values[j]
    decreases j - i
  {
    if i < j {
      ValuesOrdered(values, i + 1, j);
    }
  }

  /**
   * The rule state of the chart: how many marks lie between the two limits,
   * the marks themselves and the points they are drawn at.
   */
  class ScrollableChart {
    var numberOfRuleMarks: real
    var internalRulesMarks: seq<real>
    var rulesPoints: seq<Point>

    constructor (numberOfRuleMarks: real)
      ensures this.numberOfRuleMarks == numberOfRuleMarks
      ensures internalRulesMarks == [] && rulesPoints == []
    {
      this.numberOfRuleMarks := numberOfRuleMarks;
      internalRulesMarks := [];
      rulesPoints := [];
    }

    /** `appendRuleMark(_:)`: appends exactly the value's mark. */
    method AppendRuleMark(value: real)
      modifies this`internalRulesMarks
      ensures internalRulesMarks == old(internalRulesMarks) + [Mark(value) as real]
    {
      if value > 10000.0 {
        var roundToNearest := Round(value / 1000.0) * 1000;
        internalRulesMarks := internalRulesMarks + [roundToNearest as real];
      } else {
        internalRulesMarks := internalRulesMarks + [Round(value) as real];
      }
    }

    /**
     * `internalCalcRules(generator:)`: appends N + 1 evenly stepped marks from
     * the generator's minimum, then its maximum. Swift's `0..<k` traps for a
     * negative k, hence the requirement.
     */
    method InternalCalcRules(generator: DiscreteScaledPointsGenerator)
      requires Trunc(numberOfRuleMarks) >= -1
      modifies this`internalRulesMarks
      ensures internalRulesMarks == old(internalRulesMarks)
        + RuleMarks(Trunc(numberOfRuleMarks), generator.minimumValue, generator.maximumValue)
    {
      var numberOfAllRuleMarks := Trunc(numberOfRuleMarks) + 2 - 1;
      // With no loop iterations the step (an infinite or NaN quotient in
      // the source) is never used.
      var roundedStep := if numberOfAllRuleMarks == 0 then 0.0
        else generator.Range() / numberOfAllRuleMarks as real;
      ghost var values := RuleValues(generator.minimumValue, generator.maximumValue, numberOfAllRuleMarks);
      var ruleMarkIndex := 0;
      while ruleMarkIndex < numberOfAllRuleMarks
        invariant 0 <= ruleMarkIndex <= numberOfAllRuleMarks
        invariant internalRulesMarks == old(internalRulesMarks) + MarksOf(values[..ruleMarkIndex])
      {
        var value := generator.minimumValue + roundedStep * ruleMarkIndex as real;
        RuleValueAt(generator.minimumValue, generator.maximumValue, numberOfAllRuleMarks, ruleMarkIndex);
        assert value == values[ruleMarkIndex];
        AppendRuleMark(value);
        assert values[..ruleMarkIndex + 1] == values[..ruleMarkIndex] + [value];
        ruleMarkIndex := ruleMarkIndex + 1;
      }
      AppendRuleMark(generator.maximumValue);
      assert values == values[..numberOfAllRuleMarks] + [generator.maximumValue];
    }

    /**
     * `makeRulesPoints()`, given the polyline render's transform and the
     * generator built for its samples (limits already set). It gives up,
     * touching nothing, for simplified or regressed data, when no marks are
     * asked for, or when the range is 0; otherwise it replaces the marks by
     * the N + 2 fresh ones and draws one point per mark.
     */
    method MakeRulesPoints(polylineType: RenderDataType, generator: DiscreteScaledPointsGenerator, size: Size)
      returns (ok: bool)
      modifies this`internalRulesMarks, this`rulesPoints
      ensures ok <==>
        ((polylineType.Discrete? || polylineType.Stadistics?) && numberOfRuleMarks > 0.0 && generator.Range() != 0.0)
      ensures !ok ==> internalRulesMarks == old(internalRulesMarks) && rulesPoints == old(rulesPoints)
      ensures ok ==>
        internalRulesMarks == RuleMarks(Trunc(numberOfRuleMarks), generator.minimumValue, generator.maximumValue)
      ensures ok ==> rulesPoints == generator.MakePoints(internalRulesMarks, size)
      ensures ok ==> |rulesPoints| == |internalRulesMarks| == Trunc(numberOfRuleMarks) + 2
    {
      var hasGenerator := match polylineType
        case Discrete => true
        case Stadistics(_) => true
        case Simplify(_, _) => false
        case Regress(_) => false;
      if !(numberOfRuleMarks > 0.0 && hasGenerator && generator.Range() != 0.0) {
        return false;
      }
      ghost var count := numberOfRuleMarks;
      var n := Trunc(count);
      ghost var lo, hi := generator.minimumValue, generator.maximumValue;
      ghost var marks := RuleMarks(n, lo, hi);
      internalRulesMarks := [];
      assert numberOfRuleMarks == count;
      InternalCalcRules(generator);
      assert numberOfRuleMarks == count;
      assert generator.minimumValue == lo && generator.maximumValue == hi;
      assert internalRulesMarks == marks by {
        assert [] + marks == marks;
      }
      var pts := generator.MakePoints(internalRulesMarks, size);
      assert |pts| == n + 2;
      rulesPoints := pts;
      assert numberOfRuleMarks == count;
      return true;
    }
  }
}
