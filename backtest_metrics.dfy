/** The pure half of portfolio_insight/portfolio/backtest.py: the supported
    backtest periods and their date ranges, CAGR, maximum drawdown and the Sharpe
    ratio. */
module BacktestMetrics {
  import opened Basics

  /** Real powers and square roots (`**`, `np.sqrt`), which the model takes as given. */
  datatype RealMath = RealMath(pow: (real, real) -> real, sqrt: real -> real)

  /** The law of `**` that the CAGR property relies on: raising a positive base to
      z and then to y, where y * z == 1, gives the base back. */
  ghost predicate PowRoundTrip(m: RealMath)
  {
    forall x: real, y: real, z: real ::
      x > 0.0 && y * z == 1.0 ==> m.pow(m.pow(x, z), y) == x
  }

  // ---------------------------------------------------------------------------
  // Periods and date ranges

  const OneYear: string := "1Y"
  const FiveYears: string := "5Y"
  const TenYears: string := "10Y"

  /** The periods `run_backtest` accepts, in its default order. */
  const SupportedPeriods: seq<string> := [OneYear, FiveYears, TenYears]

  /** How many years back a period label reaches. */
  function PeriodYears(period: string): (r: Option<nat>)
    ensures r.Some? <==> period in SupportedPeriods
    ensures r.Some? ==> r.value == 1 || r.value == 5 || r.value == 10
  {
    if period == OneYear then Some(1)
    else if period == FiveYears then Some(5)
    else if period == TenYears then Some(10)
    else None
  }

  /** A `datetime`: calendar date plus the time of day in microseconds. */
  datatype DateTime = DateTime(year: int, month: int, day: int, micros: int)

  const MinYear: int := 1
  const MaxYear: int := 9999
  const MicrosPerDay: int := 86_400_000_000

  predicate IsLeapYear(y: int)
  {
    y % 4 == 0 && (y % 100 != 0 || y % 400 == 0)
  }

  function DaysInMonth(y: int, m: int): (n: int)
    requires 1 <= m <= 12
    ensures 28 <= n <= 31
  {
    if m == 2 then (if IsLeapYear(y) then 29 else 28)
    else if m == 4 || m == 6 || m == 9 || m == 11 then 30
    else 31
  }

  predicate ValidDateTime(d: DateTime)
  {
    && MinYear <= d.year <= MaxYear
    && 1 <= d.month <= 12
    && 1 <= d.day <= DaysInMonth(d.year, d.month)
    && 0 <= d.micros < MicrosPerDay
  }

  /** Chronological order. */
  predicate Before(a: DateTime, b: DateTime)
  {
    || a.year < b.year
    || (a.year == b.year && a.month < b.month)
    || (a.year == b.year && a.month == b.month && a.day < b.day)
    || (a.year == b.year && a.month == b.month && a.day == b.day && a.micros < b.micros)
  }

  datatype PeriodError = UnsupportedPeriod(period: string) | YearOutOfRange

  /** `d - relativedelta(years=n)`: the same month, day and time n years earlier,
      with 29 February clamped to the 28th in a common year; a year before 1 is an
      error. */
  function YearsEarlier(d: DateTime, n: nat): (r: Result<DateTime, PeriodError>)
    requires ValidDateTime(d)
    ensures r.Ok? <==> d.year - n >= MinYear
    ensures r.Ok? ==> ValidDateTime(r.value)
  {
    var y := d.year - n;
    if y < MinYear then Err(YearOutOfRange)
    else
      var last := DaysInMonth(y, d.month);
      Ok(DateTime(y, d.month, if d.day <= last then d.day else last, d.micros))
  }

  /** BacktestPeriod.get_date_range, with the clock reading `now` as a parameter. */
  function GetDateRange(period: string, now: DateTime): (r: Result<(DateTime, DateTime), PeriodError>)
    requires ValidDateTime(now)
    ensures r.Err? && r.error == UnsupportedPeriod(period) <==> period !in SupportedPeriods
    ensures r.Ok? ==> r.value.1 == now && ValidDateTime(r.value.0)
  {
    match PeriodYears(period)
    case None => Err(UnsupportedPeriod(period))
    case Some(n) =>
      match YearsEarlier(now, n)
      case Err(e) => Err(e)
      case Ok(start) => Ok((start, now))
  }

  /** A supported period ends now and starts exactly its number of years earlier:
      same month and time of day, same day of month unless 29 February has to
      become the 28th; the start is strictly before the end. */
  lemma DateRangeSpansPeriod(period: string, now: DateTime)
    requires ValidDateTime(now) && period in SupportedPeriods
    requires now.year - 10 >= MinYear
    ensures var r := GetDateRange(period, now);
      && r.Ok?
      && r.value.0.year == now.year - PeriodYears(period).value
      && r.value.0.month == now.month
      && r.value.0.micros == now.micros
      && (r.value.0.day == now.day || (now.month == 2 && now.day == 29 && r.value.0.day == 28))
      && Before(r.value.0, now)
  {
  }

  /** An unknown label is refused whatever the clock says. */
  lemma UnknownPeriodRefused(period: string, now: DateTime)
    requires ValidDateTime(now) && period !in SupportedPeriods
    ensures GetDateRange(period, now) == Err(UnsupportedPeriod(period))
  {
  }

  // ---------------------------------------------------------------------------
  // CAGR

  /** calculate_cagr */
  function Cagr(m: RealMath, startValue: real, endValue: real, years: real): (r: real)
    ensures startValue <= 0.0 || years <= 0.0 ==> r == 0.0
    ensures startValue > 0.0 && years > 0.0 ==> r + 1.0 == m.pow(endValue / startValue, 1.0 / years)
  {
    if startValue <= 0.0 || years <= 0.0 then 0.0
    else m.pow(endValue / startValue, 1.0 / years) - 1.0
  }

  /** Growing the start value at the CAGR for the given number of years gives the
      end value back. */
  lemma CagrCompounds(m: RealMath, startValue: real, endValue: real, years: real)
    requires PowRoundTrip(m)
    requires startValue > 0.0 && endValue > 0.0 && years > 0.0
    ensures startValue * m.pow(1.0 + Cagr(m, startValue, endValue, years), years) == endValue
  {
    var ratio := endValue / startValue;
    Reciprocal(years);
    assert m.pow(m.pow(ratio, 1.0 / years), years) == ratio;
    ScaleBack(startValue, endValue);
  }

  lemma Reciprocal(y: real)
    requires y != 0.0
    ensures y * (1.0 / y) == 1.0
  {
  }

  lemma ScaleBack(a: real, b: real)
    requires a != 0.0
    ensures a * (b / a) == b
  {
  }

  // ---------------------------------------------------------------------------
  // Maximum drawdown

  /** The running peak once position j has been seen, starting from the first value. */
  function PeakAt(values: seq<real>, j: nat): (p: real)
    requires j < |values|
    ensures forall k :: 0 <= k <= j ==> values[k] <= p
  {
    if j == 0 then values[0]
    else
      var p := PeakAt(values, j - 1);
      if values[j] > p then values[j] else p
  }

  /** Division by a zero peak raises ZeroDivisionError in the source. */
  datatype DrawdownError = ZeroPeak

  function Max(a: real, b: real): real
  {
    if a >= b then a else b
  }

  /** The drawdown at position j, measured from the peak reached so far. */
  function DrawdownAt(values: seq<real>, j: nat): real
    requires j < |values| && PeakAt(values, j) != 0.0
  {
    (PeakAt(values, j) - values[j]) / PeakAt(values, j)
  }

  /** The loop of calculate_max_drawdown after its first n iterations. */
  function DrawdownScan(values: seq<real>, n: nat): (r: Result<real, DrawdownError>)
    requires n <= |values|
    ensures r.Ok? ==> r.value >= 0.0
  {
    if n == 0 then Ok(0.0)
    else
      match DrawdownScan(values, n - 1)
      case Err(e) => Err(e)
      case Ok(best) =>
        var p := PeakAt(values, n - 1);
        if p == 0.0 then Err(ZeroPeak)
        else Ok(Max(best, (p - values[n - 1]) / p))
  }

  /** calculate_max_drawdown, as a function of the value series. */
  function MaxDrawdown(values: seq<real>): (r: Result<real, DrawdownError>)
    ensures |values| < 2 ==> r == Ok(0.0)
    ensures r.Ok? ==> r.value >= 0.0
  {
    if |values| < 2 then Ok(0.0) else DrawdownScan(values, |values|)
  }

  /** The series of the tests: the fall from the peak of 1200 to 900 is the
      largest, a quarter of the peak. */
  lemma DrawdownExample()
    ensures MaxDrawdown([1000.0, 1100.0, 1050.0, 950.0, 1200.0, 900.0, 1300.0]) == Ok(0.25)
  {
    var v := [1000.0, 1100.0, 1050.0, 950.0, 1200.0, 900.0, 1300.0];
    assert PeakAt(v, 3) == 1100.0;
    assert DrawdownScan(v, 4) == Ok(150.0 / 1100.0);
    assert PeakAt(v, 5) == 1200.0;
    assert DrawdownScan(v, 6) == Ok(0.25);
    assert PeakAt(v, 6) == 1300.0;
  }

  /** The scan fails exactly when some running peak is zero. */
  lemma {:induction false} DrawdownScanFails(values: seq<real>, n: nat)
    requires n <= |values|
    ensures DrawdownScan(values, n).Err? <==> exists j :: 0 <= j < n && PeakAt(values, j) == 0.0
  {
    if n > 0 {
      DrawdownScanFails(values, n - 1);
      if DrawdownScan(values, n - 1).Ok? && PeakAt(values, n - 1) != 0.0 {
        assert DrawdownScan(values, n).Ok?;
        forall j | 0 <= j < n ensures PeakAt(values, j) != 0.0 {
          if j < n - 1 {
          }
        }
      } else if DrawdownScan(values, n - 1).Ok? {
        assert PeakAt(values, n - 1) == 0.0;
      }
    }
  }

  /** Once the scan has failed it stays failed. */
  lemma {:induction false} DrawdownScanErrPersists(values: seq<real>, n: nat, m: nat)
    requires n <= m <= |values| && DrawdownScan(values, n).Err?
    ensures DrawdownScan(values, m) == Err(ZeroPeak)
    decreases m - n
  {
    if n < m {
      assert DrawdownScan(values, n + 1).Err?;
      DrawdownScanErrPersists(values, n + 1, m);
    } else {
      assert DrawdownScan(values, m).error == ZeroPeak;
    }
  }

  /** Otherwise it returns the largest drawdown seen, or 0 when none is positive. */
  lemma {:induction false} DrawdownScanIsMax(values: seq<real>, n: nat)
    requires n <= |values| && DrawdownScan(values, n).Ok?
    ensures var d := DrawdownScan(values, n).value;
      && d >= 0.0
      && (forall j :: 0 <= j < n ==> PeakAt(values, j) != 0.0 && d >= DrawdownAt(values, j))
      && (d == 0.0 || exists j :: 0 <= j < n && PeakAt(values, j) != 0.0 && d == DrawdownAt(values, j))
  {
    if n > 0 {
      DrawdownScanIsMax(values, n - 1);
      var best := DrawdownScan(values, n - 1).value;
      assert DrawdownScan(values, n).value == Max(best, DrawdownAt(values, n - 1));
    }
  }

  /** calculate_max_drawdown's result characterised: with fewer than two values it
      is 0; otherwise it fails on a zero peak and else is the largest drawdown
      from a running peak (never below 0). */
  lemma MaxDrawdownIsLargestDrawdown(values: seq<real>)
    ensures |values| < 2 ==> MaxDrawdown(values) == Ok(0.0)
    ensures |values| >= 2 ==>
      (MaxDrawdown(values).Err? <==> exists j :: 0 <= j < |values| && PeakAt(values, j) == 0.0)
    ensures |values| >= 2 && MaxDrawdown(values).Ok? ==>
      var d := MaxDrawdown(values).value;
      && d >= 0.0
      && (forall j :: 0 <= j < |values| ==> PeakAt(values, j) != 0.0 && d >= DrawdownAt(values, j))
      && (d == 0.0 || exists j :: 0 <= j < |values| && PeakAt(values, j) != 0.0 && d == DrawdownAt(values, j))
  {
    if |values| >= 2 {
      DrawdownScanFails(values, |values|);
      if MaxDrawdown(values).Ok? {
        DrawdownScanIsMax(values, |values|);
      }
    }
  }

  lemma DrawdownBelowOne(p: real, v: real)
    requires 0.0 < v <= p
    ensures 0.0 <= (p - v) / p < 1.0
  {
    var d := (p - v) / p;
    assert d * p == p - v;
  }

  /** With positive values the drawdown is defined and lies in [0, 1). */
  lemma {:induction false} PositiveValuesDrawdown(values: seq<real>, n: nat)
    requires n <= |values|
    requires forall j :: 0 <= j < |values| ==> values[j] > 0.0
    ensures DrawdownScan(values, n).Ok?
    ensures 0.0 <= DrawdownScan(values, n).value < 1.0
  {
    if n > 0 {
      PositiveValuesDrawdown(values, n - 1);
      DrawdownBelowOne(PeakAt(values, n - 1), values[n - 1]);
    }
  }

  /** A series that never falls has no drawdown (given a positive start). */
  lemma {:induction false} NonDecreasingNoDrawdown(values: seq<real>, n: nat)
    requires n <= |values|
    requires |values| > 0 && values[0] > 0.0
    requires forall i, j :: 0 <= i <= j < |values| ==> values[i] <= values[j]
    ensures n > 0 ==> PeakAt(values, n - 1) == values[n - 1]
    ensures DrawdownScan(values, n) == Ok(0.0)
  {
    if n > 0 {
      NonDecreasingNoDrawdown(values, n - 1);
      if n > 1 {
        assert values[n - 2] <= values[n - 1];
      }
      var p := PeakAt(values, n - 1);
      assert p == values[n - 1];
      assert values[0] <= p;
      assert p != 0.0;
      assert (p - values[n - 1]) / p == 0.0;
    }
  }

  /** calculate_max_drawdown (portfolio_insight/portfolio/backtest.py): one pass
      keeping the running peak and the largest drawdown so far. */
  method CalculateMaxDrawdown(values: seq<real>) returns (r: Result<real, DrawdownError>)
    ensures r == MaxDrawdown(values)
  {
    if |values| < 2 {
      return Ok(0.0);
    }
    var peak := values[0];
    var maxDrawdown := 0.0;
    for i := 0 to |values|
      invariant DrawdownScan(values, i) == Ok(maxDrawdown)
      invariant i > 0 ==> peak == PeakAt(values, i - 1)
      invariant i == 0 ==> peak == values[0]
    {
      var value := values[i];
      if value > peak {
        peak := value;
      }
      assert peak == PeakAt(values, i);
      if peak == 0.0 {
        DrawdownScanErrPersists(values, i + 1, |values|);
        return Err(ZeroPeak);
      }
      var drawdown := (peak - value) / peak;
      maxDrawdown := Max(maxDrawdown, drawdown);
    }
    return Ok(maxDrawdown);
  }

  // ---------------------------------------------------------------------------
  // Sharpe ratio

  const TradingDaysPerYear: real := 252.0
  const DefaultRiskFreeRate: real := 0.02

  function Sum(xs: seq<real>): real
  {
    if xs == [] then 0.0 else xs[0] + Sum(xs[1..])
  }

  /** `np.mean` */
  function Mean(xs: seq<real>): real
    requires |xs| > 0
  {
    Sum(xs) / (|xs| as real)
  }

  function SquaredDeviations(xs: seq<real>, mean: real): (r: seq<real>)
    ensures |r| == |xs|
    ensures forall i :: 0 <= i < |xs| ==> r[i] == (xs[i] - mean) * (xs[i] - mean)
  {
    if xs == [] then [] else [(xs[0] - mean) * (xs[0] - mean)] + SquaredDeviations(xs[1..], mean)
  }

  /** The population variance, whose square root is `np.std`. */
  function Variance(xs: seq<real>): real
    requires |xs| > 0
  {
    Mean(SquaredDeviations(xs, Mean(xs)))
  }

  /** `returns_array - daily_risk_free` */
  function Shift(xs: seq<real>, d: real): (r: seq<real>)
    ensures |r| == |xs|
    ensures forall i :: 0 <= i < |xs| ==> r[i] == xs[i] - d
  {
    if xs == [] then [] else [xs[0] - d] + Shift(xs[1..], d)
  }

  /** The annual risk-free rate as a daily rate. */
  function DailyRiskFree(m: RealMath, riskFreeRate: real): real
  {
    m.pow(1.0 + riskFreeRate, 1.0 / TradingDaysPerYear) - 1.0
  }

  /** calculate_sharpe_ratio */
  function SharpeRatio(m: RealMath, dailyReturns: seq<real>, riskFreeRate: real): (r: real)
    ensures |dailyReturns| < 2 ==> r == 0.0
  {
    if |dailyReturns| < 2 then 0.0
    else
      var excess := Shift(dailyReturns, DailyRiskFree(m, riskFreeRate));
      var sd := m.sqrt(Variance(excess));
      if sd == 0.0 then 0.0 else Annualised(Mean(excess), sd, m.sqrt(TradingDaysPerYear))
  }

  /** Mean over standard deviation, scaled to a year. */
  function Annualised(mean: real, sd: real, k: real): real
    requires sd != 0.0
  {
    mean / sd * k
  }

  lemma {:induction false} SumConstant(xs: seq<real>, c: real)
    requires forall i :: 0 <= i < |xs| ==> xs[i] == c
    ensures Sum(xs) == (|xs| as real) * c
  {
    if xs != [] {
      SumConstant(xs[1..], c);
    }
  }

  lemma MeanConstant(xs: seq<real>, c: real)
    requires |xs| > 0
    requires forall i :: 0 <= i < |xs| ==> xs[i] == c
    ensures Mean(xs) == c
  {
    SumConstant(xs, c);
    var n := |xs| as real;
    assert (n * c) / n == c;
  }

  /** Returns without volatility give a Sharpe ratio of 0 (the standard deviation
      test fires), as long as the square root of 0 is 0. */
  lemma ConstantReturnsSharpeZero(m: RealMath, dailyReturns: seq<real>, riskFreeRate: real)
    requires m.sqrt(0.0) == 0.0
    requires forall i :: 0 <= i < |dailyReturns| ==> dailyReturns[i] == dailyReturns[0]
    ensures SharpeRatio(m, dailyReturns, riskFreeRate) == 0.0
  {
    if |dailyReturns| >= 2 {
      var d := DailyRiskFree(m, riskFreeRate);
      var excess := Shift(dailyReturns, d);
      var c := dailyReturns[0] - d;
      MeanConstant(excess, c);
      var squares := SquaredDeviations(excess, c);
      MeanConstant(squares, 0.0);
      assert Variance(excess) == 0.0;
    }
  }

  /** -1, 0 or 1 by the sign of x. */
  function Sign(x: real): int
  {
    if x > 0.0 then 1 else if x < 0.0 then -1 else 0
  }

  lemma QuotientSign(mean: real, sd: real, k: real)
    requires sd > 0.0 && k > 0.0
    ensures Sign(Annualised(mean, sd, k)) == Sign(mean)
  {
    if mean > 0.0 {
      assert mean / sd > 0.0;
    } else if mean < 0.0 {
      assert mean / sd < 0.0;
    } else {
      assert mean / sd == 0.0;
    }
  }

  lemma SharpeIsAnnualised(m: RealMath, dailyReturns: seq<real>, riskFreeRate: real)
    requires |dailyReturns| >= 2
    requires m.sqrt(Variance(Shift(dailyReturns, DailyRiskFree(m, riskFreeRate)))) > 0.0
    ensures var excess := Shift(dailyReturns, DailyRiskFree(m, riskFreeRate));
      SharpeRatio(m, dailyReturns, riskFreeRate)
        == Annualised(Mean(excess), m.sqrt(Variance(excess)), m.sqrt(TradingDaysPerYear))
  {
  }

  /** With a positive deviation and a positive annualising factor, the Sharpe ratio
      has the sign of the mean excess return. */
  lemma SharpeSign(m: RealMath, dailyReturns: seq<real>, riskFreeRate: real)
    requires |dailyReturns| >= 2
    requires m.sqrt(TradingDaysPerYear) > 0.0
    requires m.sqrt(Variance(Shift(dailyReturns, DailyRiskFree(m, riskFreeRate)))) > 0.0
    ensures Sign(SharpeRatio(m, dailyReturns, riskFreeRate))
         == Sign(Mean(Shift(dailyReturns, DailyRiskFree(m, riskFreeRate))))
  {
    var excess := Shift(dailyReturns, DailyRiskFree(m, riskFreeRate));
    var mean, sd, k := Mean(excess), m.sqrt(Variance(excess)), m.sqrt(TradingDaysPerYear);
    SharpeIsAnnualised(m, dailyReturns, riskFreeRate);
    assert SharpeRatio(m, dailyReturns, riskFreeRate) == Annualised(mean, sd, k);
    QuotientSign(mean, sd, k);
    assert Sign(Annualised(mean, sd, k)) == Sign(mean);
    assert Sign(SharpeRatio(m, dailyReturns, riskFreeRate)) == Sign(Annualised(mean, sd, k));
  }
}
