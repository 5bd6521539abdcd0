/**
 * The ExchangeRateChart component's figures over its list of data points:
 * the day-over-day change, the latest rate, and the highest, lowest and
 * average rate shown under the chart.
 */
module Chart {
  import opened Numeric

  datatype ChartPoint = ChartPoint(date: string, rate: real)

  /** `data.map(d => d.rate)`. */
  function RatesOf(data: seq<ChartPoint>): (rates: seq<real>)
    ensures |rates| == |data|
    ensures forall i :: 0 <= i < |data| ==> rates[i] == data[i].rate
  {
    if |data| == 0 then [] else RatesOf(data[..|data| - 1]) + [data[|data| - 1].rate]
  }

  /**
   * What calculateChange returns: the change and percentage as toFixed(2)
   * would print them (read back as numbers) and whether the rate rose.
   */
  datatype Change = Change(change: real, percentage: Num, isPositive: bool)

  /** The percentage of a change relative to the previous rate, before rounding: `(change / previous) * 100`. */
  function RawPercentage(change: real, previous: real): (p: Num)
    ensures previous != 0.0 ==> p == Finite(change / previous * 100.0)
    ensures previous == 0.0 && change == 0.0 ==> p.NaN?
    ensures previous == 0.0 && change != 0.0 ==> p == Infinity(change < 0.0)
  {
    Mul(Div(Finite(change), Finite(previous)), Finite(100.0))
  }

  /** `x.toFixed(2)` read back as a number; NaN and the infinities print as themselves. */
  function Fixed2(n: Num): (r: Num)
    ensures n.Finite? ==> r.Finite? && IsCents(r.v) && -0.005 <= r.v - n.v <= 0.005
    ensures !n.Finite? ==> r == n
  {
    if n.Finite? then Finite(JsFixed2(n.v)) else n
  }

  /** calculateChange over the data list. */
  function CalculateChange(data: seq<ChartPoint>): (c: Change)
    ensures |data| < 2 ==> c == Change(0.0, Finite(0.0), true)
    ensures |data| >= 2 ==>
      var latest := data[|data| - 1].rate;
      var previous := data[|data| - 2].rate;
      && (c.isPositive <==> latest >= previous)
      && IsCents(c.change) && -0.005 <= c.change - (latest - previous) <= 0.005
      && (previous != 0.0 ==>
            c.percentage.Finite? && -0.005 <= c.percentage.v - (latest - previous) / previous * 100.0 <= 0.005)
      && (previous == 0.0 ==> !c.percentage.Finite?)
  {
    if |data| < 2 then Change(0.0, Finite(0.0), true)
    else
      var latest := data[|data| - 1].rate;
      var previous := data[|data| - 2].rate;
      var change := latest - previous;
      var percentage := RawPercentage(change, previous);
      Change(JsFixed2(change), Fixed2(percentage), change >= 0.0)
  }

  /** `data.length > 0 ? data[data.length - 1].rate : 0`. */
  function LatestRate(data: seq<ChartPoint>): (r: real)
    ensures |data| == 0 ==> r == 0.0
    ensures |data| > 0 ==> r == data[|data| - 1].rate
  {
    if |data| > 0 then data[|data| - 1].rate else 0.0
  }

  /** The largest element of a non-empty list. */
  function MaxOf(s: seq<real>): (m: real)
    requires |s| > 0
    ensures m in s
    ensures forall i :: 0 <= i < |s| ==> s[i] <= m
  {
    if |s| == 1 then s[0]
    else
      var m := MaxOf(s[..|s| - 1]);
      assert forall i :: 0 <= i < |s| - 1 ==> s[..|s| - 1][i] == s[i];
      if s[|s| - 1] > m then s[|s| - 1] else m
  }

  /** The smallest element of a non-empty list. */
  function MinOf(s: seq<real>): (m: real)
    requires |s| > 0
    ensures m in s
    ensures forall i :: 0 <= i < |s| ==> m <= s[i]
  {
    if |s| == 1 then s[0]
    else
      var m := MinOf(s[..|s| - 1]);
      assert forall i :: 0 <= i < |s| - 1 ==> s[..|s| - 1][i] == s[i];
      if s[|s| - 1] < m then s[|s| - 1] else m
  }

  /** `Math.max(...rates)`: -Infinity for no rates. */
  function MathMax(rates: seq<real>): (r: Num)
    ensures |rates| == 0 ==> r == Infinity(true)
    ensures |rates| > 0 ==> r.Finite? && r.v in rates && forall i :: 0 <= i < |rates| ==> rates[i] <= r.v
  {
    if |rates| == 0 then Infinity(true) else Finite(MaxOf(rates))
  }

  /** `Math.min(...rates)`: +Infinity for no rates. */
  function MathMin(rates: seq<real>): (r: Num)
    ensures |rates| == 0 ==> r == Infinity(false)
    ensures |rates| > 0 ==> r.Finite? && r.v in rates && forall i :: 0 <= i < |rates| ==> r.v <= rates[i]
  {
    if |rates| == 0 then Infinity(false) else Finite(MinOf(rates))
  }

  /** `rates.reduce((sum, r) => sum + r, 0)`, adding from the left. */
  function Sum(rates: seq<real>): real
  {
    if |rates| == 0 then 0.0 else Sum(rates[..|rates| - 1]) + rates[|rates| - 1]
  }

  /** The sum divided by the count: NaN (0 / 0) for no rates. */
  function Average(rates: seq<real>): (r: Num)
    ensures |rates| == 0 ==> r.NaN?
    ensures |rates| > 0 ==> r == Finite(Sum(rates) / |rates| as real)
  {
    Div(Finite(Sum(rates)), Finite(|rates| as real))
  }

  /** A sum of values between two bounds lies between count × lower and count × upper. */
  lemma {:induction false} SumBounds(rates: seq<real>, lo: real, hi: real)
    requires forall i :: 0 <= i < |rates| ==> lo <= rates[i] <= hi
    ensures |rates| as real * lo <= Sum(rates) <= |rates| as real * hi
  {
    if |rates| > 0 {
      var init := rates[..|rates| - 1];
      assert forall i :: 0 <= i < |init| ==> init[i] == rates[i];
      SumBounds(init, lo, hi);
    }
  }

  /** The unrounded average lies between the lowest and the highest rate. */
  lemma AverageBetweenMinAndMax(rates: seq<real>)
    requires |rates| > 0
    ensures MathMin(rates).v <= Average(rates).v <= MathMax(rates).v
  {
    var lo := MinOf(rates);
    var hi := MaxOf(rates);
    var n := |rates| as real;
    SumBounds(rates, lo, hi);
    DivideBounds(Sum(rates), n, lo, hi);
  }

  lemma DivideBounds(total: real, n: real, lo: real, hi: real)
    requires n > 0.0 && n * lo <= total <= n * hi
    ensures lo <= total / n <= hi
  {
    assert (total / n) * n == total;
  }

  /** A list of one rate has that rate as its highest, lowest and average. */
  lemma SingleRateFigures(r: real)
    ensures MathMax([r]) == Finite(r) && MathMin([r]) == Finite(r) && Average([r]) == Finite(r)
  {
    assert [r][..0] == [];
    assert Sum([r]) == Sum([]) + r;
  }
}
