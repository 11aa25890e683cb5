/** Battery level from battery voltage by a table of knots
    (src/logid/backend/hidpp20/features/BatteryStatus.cpp). */
module BatteryEstimate {
  import opened Common

  datatype Knot = Knot(voltage: nat, percent: nat)

  /** The table of the source, highest voltage first. */
  const VOLTAGE_TO_PERCENTAGE := [
    Knot(4186, 100), Knot(4067, 90), Knot(3989, 80), Knot(3922, 70), Knot(3859, 60), Knot(3811, 50), Knot(3778, 40),
    Knot(3751, 30), Knot(3717, 20), Knot(3671, 10), Knot(3646, 5), Knot(3579, 2), Knot(3500, 0)
  ]

  /** Voltage falls strictly from knot to knot and the percentage never rises. */
  predicate Falling(t: seq<Knot>) {
    forall i, j :: 0 <= i < j < |t| ==> t[i].voltage > t[j].voltage && t[i].percent >= t[j].percent
  }

  /** std::round on what is never negative here. */
  function Round(x: real): int {
    (x + 0.5).Floor
  }

  /** The point n/d of the way from lo to hi. */
  function Line(lo: real, hi: real, n: real, d: real): real
    requires d != 0.0
  {
    lo + (hi - lo) * (n / d)
  }

  function Interpolate(high: Knot, low: Knot, v: nat): int
    requires high.voltage != low.voltage
  {
    Round(Line(low.percent as real, high.percent as real,
               (v - low.voltage) as real, (high.voltage - low.voltage) as real))
  }

  predicate Within(t: seq<Knot>, i: nat, v: nat)
    requires i + 1 < |t|
  {
    t[i + 1].voltage <= v <= t[i].voltage
  }

  /** The first pair of neighbouring knots, from index i on, that v lies between. */
  function Segment(t: seq<Knot>, v: nat, i: nat): (r: Option<nat>)
    ensures r.Some? ==> r.value + 1 < |t| && Within(t, r.value, v)
    decreases |t| - i
  {
    if i + 1 >= |t| then None
    else if Within(t, i, v) then Some(i)
    else Segment(t, v, i + 1)
  }

  /** None stands for the nullopt at the end of the source's function. */
  function Estimate(t: seq<Knot>, v: nat): Option<int>
    requires t != [] && Falling(t)
  {
    if v >= t[0].voltage then Some(t[0].percent)
    else if v <= t[|t| - 1].voltage then Some(t[|t| - 1].percent)
    else
      match Segment(t, v, 0)
      case Some(k) => Some(Interpolate(t[k], t[k + 1], v))
      case None => None
  }

  method EstimateBatteryPercentage(t: seq<Knot>, v: nat) returns (r: Option<int>)
    requires t != [] && Falling(t)
    ensures r == Estimate(t, v)
  {
    if v >= t[0].voltage {
      return Some(t[0].percent);
    }
    if v <= t[|t| - 1].voltage {
      return Some(t[|t| - 1].percent);
    }
    var i := 0;
    while i + 1 < |t|
      invariant Segment(t, v, 0) == Segment(t, v, i)
    {
      var high, low := t[i], t[i + 1];
      if v < low.voltage || v > high.voltage {
        i := i + 1;
        continue;
      }
      var percent := Line(low.percent as real, high.percent as real,
                          (v - low.voltage) as real, (high.voltage - low.voltage) as real);
      return Some(Round(percent));
    }
    return None;
  }

  // ---------------------------------------------------------------------------------------------
  // One segment
  // ---------------------------------------------------------------------------------------------

  lemma RatioOrder(n: real, m: real, d: real)
    requires 0.0 <= n <= m <= d && d > 0.0
    ensures 0.0 <= n / d <= m / d <= 1.0
  {
  }

  lemma ProductOrder(p: real, q: real, r: real)
    requires 0.0 <= p && q <= r
    ensures p * q <= p * r
  {
    assert p * (r - q) >= 0.0;
    assert p * (r - q) == p * r - p * q;
  }

  lemma Blend(lo: real, hi: real, q: real, r: real)
    requires lo <= hi && 0.0 <= q <= r <= 1.0
    ensures lo <= lo + (hi - lo) * q <= lo + (hi - lo) * r <= hi
  {
    var p := hi - lo;
    ProductOrder(p, 0.0, q);
    ProductOrder(p, q, r);
    ProductOrder(p, r, 1.0);
  }

  lemma LineOrder(lo: real, hi: real, n: real, m: real, d: real)
    requires lo <= hi && 0.0 <= n <= m <= d && d > 0.0
    ensures lo <= Line(lo, hi, n, d) <= Line(lo, hi, m, d) <= hi
  {
    RatioOrder(n, m, d);
    Blend(lo, hi, n / d, m / d);
  }

  lemma LineEnds(lo: real, hi: real, d: real)
    requires d > 0.0
    ensures Line(lo, hi, 0.0, d) == lo && Line(lo, hi, d, d) == hi
  {
    assert d / d == 1.0 && 0.0 / d == 0.0;
  }

  lemma LineTimes(lo: real, hi: real, n: real, d: real)
    requires d > 0.0
    ensures Line(lo, hi, n, d) * d == lo * d + (hi - lo) * n
  {
    var p, q := hi - lo, n / d;
    assert q * d == n;
    assert (p * q) * d == p * (q * d);
  }

  lemma RoundOrder(x: real, y: real)
    requires x <= y
    ensures Round(x) <= Round(y)
  {
  }

  lemma RoundInt(n: int)
    ensures Round(n as real) == n
  {
  }

  lemma SegmentOrder(high: Knot, low: Knot, v: nat, w: nat)
    requires low.voltage < high.voltage && low.percent <= high.percent
    requires low.voltage <= v <= w <= high.voltage
    ensures low.percent <= Interpolate(high, low, v) <= Interpolate(high, low, w) <= high.percent
  {
    var lo, hi, d := low.percent as real, high.percent as real, (high.voltage - low.voltage) as real;
    var n, m := (v - low.voltage) as real, (w - low.voltage) as real;
    LineOrder(lo, hi, n, m, d);
    RoundInt(low.percent);
    RoundInt(high.percent);
    RoundOrder(lo, Line(lo, hi, n, d));
    RoundOrder(Line(lo, hi, n, d), Line(lo, hi, m, d));
    RoundOrder(Line(lo, hi, m, d), hi);
  }

  lemma SegmentEnds(high: Knot, low: Knot)
    requires low.voltage < high.voltage
    ensures Interpolate(high, low, low.voltage) == low.percent
    ensures Interpolate(high, low, high.voltage) == high.percent
  {
    LineEnds(low.percent as real, high.percent as real, (high.voltage - low.voltage) as real);
    RoundInt(low.percent);
    RoundInt(high.percent);
  }

  lemma SmallProduct(e: real, d: real)
    requires -0.5 <= e < 0.5 && d > 0.0
    ensures -d <= 2.0 * (e * d) < d
  {
    assert (e + 0.5) * d >= 0.0;
    assert (0.5 - e) * d > 0.0;
  }

  lemma Scale(a: real, x: real, d: real, ad: real, xd: real)
    requires a - 0.5 <= x < a + 0.5 && d > 0.0
    requires ad == a * d
    requires xd == x * d
    ensures 2.0 * ad - d <= 2.0 * xd
    ensures 2.0 * xd < 2.0 * ad + d
  {
    var e := x - a;
    SmallProduct(e, d);
    var ed := e * d;
    assert ed == xd - ad;
    assert 2.0 * ed < d;
  }

  /** Rounding a quotient of integers, stated without division. */
  lemma RoundTimes(x: real, r: int, line: int, d: int)
    requires r as real - 0.5 <= x < r as real + 0.5
    requires d > 0 && x * d as real == line as real
    ensures 2 * line - d < 2 * (r * d) <= 2 * line + d
  {
    CastProduct(r, d);
    Scale(r as real, x, d as real, (r * d) as real, line as real);
  }

  lemma CastProduct(a: int, b: int)
    ensures (a * b) as real == a as real * b as real
  {
  }

  /** The interpolated percentage is the integer nearest to the straight line between the knots, the
      larger one when two are equally near. */
  lemma SegmentNearest(high: Knot, low: Knot, v: nat)
    requires low.voltage < high.voltage
    ensures var d := high.voltage - low.voltage;
            var line := low.percent * d + (high.percent - low.percent) * (v - low.voltage);
            2 * line - d < 2 * (Interpolate(high, low, v) * d) <= 2 * line + d
  {
    var d, n, p := high.voltage - low.voltage, v - low.voltage, high.percent - low.percent;
    var line := low.percent * d + p * n;
    LineTimes(low.percent as real, high.percent as real, n as real, d as real);
    CastProduct(low.percent, d);
    CastProduct(p, n);
    var x := Line(low.percent as real, high.percent as real, n as real, d as real);
    RoundTimes(x, Round(x), line, d);
  }

  // ---------------------------------------------------------------------------------------------
  // Any falling table
  // ---------------------------------------------------------------------------------------------

  lemma {:induction false} SegmentFound(t: seq<Knot>, v: nat, i: nat)
    requires Falling(t) && i < |t| && t[|t| - 1].voltage < v <= t[i].voltage
    ensures Segment(t, v, i).Some? && i <= Segment(t, v, i).value
    ensures Segment(t, v, i).value > i ==> v < t[Segment(t, v, i).value].voltage
    decreases |t| - i
  {
    if !Within(t, i, v) {
      SegmentFound(t, v, i + 1);
    }
  }

  /** The estimate exists for every voltage: the last return of the source is not reached.  It lies
      between the percentages at the two ends of the table. */
  lemma EstimateTotal(t: seq<Knot>, v: nat)
    requires t != [] && Falling(t)
    ensures Estimate(t, v).Some?
    ensures t[|t| - 1].percent <= Estimate(t, v).value <= t[0].percent
    ensures v >= t[0].voltage ==> Estimate(t, v).value == t[0].percent
    ensures v <= t[|t| - 1].voltage ==> Estimate(t, v).value == t[|t| - 1].percent
  {
    if t[|t| - 1].voltage < v < t[0].voltage {
      SegmentFound(t, v, 0);
      var k := Segment(t, v, 0).value;
      SegmentOrder(t[k], t[k + 1], v, v);
    }
  }

  /** At a knot the estimate is the knot's own percentage. */
  lemma EstimateAtKnot(t: seq<Knot>, i: nat)
    requires Falling(t) && i < |t|
    ensures Estimate(t, t[i].voltage) == Some(t[i].percent)
  {
    var v := t[i].voltage;
    if 0 < i < |t| - 1 {
      SegmentFound(t, v, 0);
      var k := Segment(t, v, 0).value;
      SegmentEnds(t[k], t[k + 1]);
      assert k + 1 == i || k == i;
    }
  }

  lemma SameSegment(t: seq<Knot>, k: nat, i: nat, v: nat)
    requires Falling(t) && k + 1 < |t| && i + 1 < |t| && Within(t, k, v)
    requires t[i + 1].voltage < v < t[i].voltage
    ensures k == i
  {
  }

  lemma HigherSegment(t: seq<Knot>, k: nat, m: nat, v: nat, w: nat)
    requires Falling(t) && k + 1 < |t| && m + 1 < |t| && Within(t, k, v) && Within(t, m, w)
    requires v <= w && k != m && (k > 0 ==> v < t[k].voltage) && (m > 0 ==> w < t[m].voltage)
    ensures t[k].percent <= t[m + 1].percent
  {
  }

  /** Between two neighbouring knots the estimate is the integer nearest to the line through them. */
  lemma EstimateNearest(t: seq<Knot>, i: nat, v: nat)
    requires Falling(t) && i + 1 < |t| && Within(t, i, v)
    ensures var d := t[i].voltage - t[i + 1].voltage;
            var line := t[i + 1].percent * d + (t[i].percent - t[i + 1].percent) * (v - t[i + 1].voltage);
            Estimate(t, v).Some? && 2 * line - d < 2 * (Estimate(t, v).value * d) <= 2 * line + d
  {
    SegmentNearest(t[i], t[i + 1], v);
    if v == t[i].voltage {
      EstimateAtKnot(t, i);
      SegmentEnds(t[i], t[i + 1]);
    } else if v == t[i + 1].voltage {
      EstimateAtKnot(t, i + 1);
      SegmentEnds(t[i], t[i + 1]);
    } else {
      assert t[|t| - 1].voltage <= t[i + 1].voltage;
      assert t[i].voltage <= t[0].voltage;
      SegmentFound(t, v, 0);
      SameSegment(t, Segment(t, v, 0).value, i, v);
    }
  }

  /** A higher voltage never gives a lower estimate, within a segment or across segments. */
  lemma EstimateMonotone(t: seq<Knot>, v: nat, w: nat)
    requires t != [] && Falling(t) && v <= w
    ensures Estimate(t, v).Some? && Estimate(t, w).Some?
    ensures Estimate(t, v).value <= Estimate(t, w).value
  {
    EstimateTotal(t, v);
    EstimateTotal(t, w);
    if t[|t| - 1].voltage < v && w < t[0].voltage {
      SegmentFound(t, v, 0);
      SegmentFound(t, w, 0);
      var k, m := Segment(t, v, 0).value, Segment(t, w, 0).value;
      if k == m {
        SegmentOrder(t[k], t[k + 1], v, w);
      } else {
        SegmentOrder(t[k], t[k + 1], v, v);
        SegmentOrder(t[m], t[m + 1], w, w);
        HigherSegment(t, k, m, v, w);
      }
    }
  }

  lemma TableFalls()
    ensures Falling(VOLTAGE_TO_PERCENTAGE)
  {
    var t := VOLTAGE_TO_PERCENTAGE;
    forall i, j | 0 <= i < j < |t|
      ensures t[i].voltage > t[j].voltage && t[i].percent >= t[j].percent
    {
      NeighboursSuffice(t, i, j);
    }
  }

  lemma {:induction false} NeighboursSuffice(t: seq<Knot>, i: nat, j: nat)
    requires i < j < |t|
    requires forall k, m :: 0 <= k < |t| && 0 <= m < |t| && m == k + 1 ==>
               t[k].voltage > t[m].voltage && t[k].percent >= t[m].percent
    ensures t[i].voltage > t[j].voltage && t[i].percent >= t[j].percent
    decreases j
  {
    assert t[j - 1].voltage > t[j].voltage && t[j - 1].percent >= t[j].percent;
    if i < j - 1 {
      NeighboursSuffice(t, i, j - 1);
    }
  }

  /** For the table of the source: a percentage from 0 to 100, 0 up to 3500 mV and 100 from 4186 mV. */
  lemma SourceTable(v: nat)
    ensures Falling(VOLTAGE_TO_PERCENTAGE)
    ensures var r := Estimate(VOLTAGE_TO_PERCENTAGE, v);
            && r.Some? && 0 <= r.value <= 100
            && (v <= 3500 ==> r.value == 0)
            && (v >= 4186 ==> r.value == 100)
  {
    TableFalls();
    EstimateTotal(VOLTAGE_TO_PERCENTAGE, v);
  }
}
