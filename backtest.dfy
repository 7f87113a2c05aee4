/** BacktestService (portfolio_insight/portfolio/backtest.py): the service object
    holding its two collaborators, the temporary share counts of a performance
    calculation, and the backtest runs built on them.  The collaborators' replies,
    the clock and the real powers and roots are inputs (an `Env`). */
module Backtest {
  import opened Basics
  import opened Dicts
  import opened BacktestMetrics
  import opened BacktestSimulation

  // ---------------------------------------------------------------------------
  // Collaborators and replies

  /** The Alpaca data client, identified by the credentials it was built from. */
  datatype AlpacaClient = AlpacaClient(apiKey: string, secretKey: string)

  /** An allocation service, seen through what `get_current_portfolio_allocation`
      answers: the current allocation, or the error message it reported or raised. */
  datatype AllocationService = AllocationService(current: Result<Allocation, string>)

  /** `get_stock_bars` and the conversion of its bars: the history of the symbols
      between the two dates, or the message of the exception raised on the way. */
  type Fetch = (AlpacaClient, seq<string>, DateTime, DateTime) -> Result<History, string>

  /** What a backtest run depends on outside the service: real powers and roots,
      the clock reading `datetime.now()`, and the market-data feed. */
  datatype Env = Env(m: RealMath, now: DateTime, fetch: Fetch)

  /** The message of `set_allocation_service`. */
  const AllocationServiceSet: string := "Allocation service set successfully"

  /** Why `set_alpaca_credentials` failed. */
  datatype SetupError =
    | LibraryMissing                       // "alpaca-py library is not installed. ..."
    | CredentialsRejected(message: string)  // "Failed to set Alpaca credentials: ..."

  datatype ServiceStatus = ServiceStatus(
    alpacaConfigured: bool,
    allocationServiceConfigured: bool,
    fullyConfigured: bool,
    alpacaAvailable: bool)

  /** A successful `run_backtest`: the backtest summary and the performance. */
  datatype BacktestReport = BacktestReport(
    period: string,
    startDate: DateTime,
    endDate: DateTime,
    initialValue: real,
    symbols: seq<string>,
    allocation: Allocation,
    performance: Performance)

  /** One row of the comparison in `run_multiple_period_backtest`. */
  datatype Comparison = Comparison(cagr: real, totalReturn: real, maxDrawdown: real, sharpeRatio: real)

  datatype Summary =
    | Compared(periodsTested: seq<string>, comparison: Dict<Comparison>)
    | NoSuccessfulResults                  // "No successful backtest results"

  datatype MultiReport = MultiReport(
    success: bool,
    results: Dict<Result<BacktestReport, BacktestError>>,
    summary: Summary)

  // ---------------------------------------------------------------------------
  // run_backtest as a function of the configuration

  /** get_portfolio_allocation */
  function PortfolioAllocation(service: Option<AllocationService>): (r: Result<Allocation, BacktestError>)
    ensures r.Ok? <==> service.Some? && service.value.current.Ok?
  {
    match service
    case None => Err(AllocationServiceNotSet)
    case Some(s) =>
      match s.current
      case Err(message) => Err(AllocationFailed(message))
      case Ok(allocation) => Ok(allocation)
  }

  /** The guards of get_historical_data in front of the fetch. */
  function HistoricalData(client: Option<AlpacaClient>, symbols: seq<string>, start: DateTime, end: DateTime, fetch: Fetch)
    : (r: Result<History, BacktestError>)
    ensures r.Ok? ==> client.Some? && symbols != [] && fetch(client.value, symbols, start, end) == Ok(r.value)
  {
    if client.None? then Err(AlpacaNotConfigured)
    else if symbols == [] then Err(NoSymbols)
    else
      match fetch(client.value, symbols, start, end)
      case Err(message) => Err(FetchFailed(message))
      case Ok(history) => Ok(history)
  }

  /** run_backtest, given the service's two collaborators. */
  function BacktestOf(env: Env, client: Option<AlpacaClient>, service: Option<AllocationService>,
                      period: string, initialValue: real): (r: Result<BacktestReport, BacktestError>)
    requires ValidDateTime(env.now)
    ensures r.Ok? ==> r.value.period == period && r.value.initialValue == initialValue
  {
    if period !in SupportedPeriods then Err(BacktestError.UnsupportedPeriod(period))
    else
      match PortfolioAllocation(service)
      case Err(e) => Err(e)
      case Ok(allocation) =>
        if allocation == [] then Err(NoCurrentAllocation)
        else
          match GetDateRange(period, env.now)
          case Err(_) => Err(RunFailed)
          case Ok((start, end)) =>
            var symbols := Keys(allocation);
            match HistoricalData(client, symbols, start, end, env.fetch)
            case Err(e) => Err(e)
            case Ok(history) =>
              match PortfolioPerformance(env.m, allocation, history, initialValue)
              case Err(e) => Err(e)
              case Ok(performance) => Ok(BacktestReport(period, start, end, initialValue, symbols, allocation, performance))
  }

  /** An unsupported period is refused before either collaborator is consulted,
      and no other failure is reported that way. */
  lemma UnsupportedPeriodFirst(env: Env, client: Option<AlpacaClient>, service: Option<AllocationService>,
                               period: string, initialValue: real)
    requires ValidDateTime(env.now)
    ensures BacktestOf(env, client, service, period, initialValue) == Err(BacktestError.UnsupportedPeriod(period))
        <==> period !in SupportedPeriods
  {
  }

  /** A backtest succeeds only on a fully configured service, and then reports the
      service's current allocation, its symbols, and a range ending now. */
  lemma SuccessNeedsConfiguration(env: Env, client: Option<AlpacaClient>, service: Option<AllocationService>,
                                  period: string, initialValue: real)
    requires ValidDateTime(env.now)
    requires BacktestOf(env, client, service, period, initialValue).Ok?
    ensures client.Some? && service.Some?
    ensures var report := BacktestOf(env, client, service, period, initialValue).value;
      && period in SupportedPeriods
      && report.period == period
      && service.value.current == Ok(report.allocation)
      && report.allocation != []
      && report.symbols == Keys(report.allocation)
      && report.endDate == env.now
      && |report.performance.dates| >= 2
  {
    var report := BacktestOf(env, client, service, period, initialValue).value;
    var history := HistoricalData(client, report.symbols, report.startDate, report.endDate, env.fetch).value;
    PerformanceShape(env.m, report.allocation, history, initialValue);
  }

  // ---------------------------------------------------------------------------
  // run_multiple_period_backtest as a function of the configuration

  /** `periods`, or all three supported periods when it is None. */
  function Periods(periods: Option<seq<string>>): (r: seq<string>)
    ensures periods.None? ==> r == SupportedPeriods
    ensures periods.Some? ==> r == periods.value
  {
    if periods.None? then SupportedPeriods else periods.value
  }

  /** `run_backtest` as a function of the period alone. */
  function Outcome(env: Env, client: Option<AlpacaClient>, service: Option<AllocationService>, initialValue: real)
    : (f: string -> Result<BacktestReport, BacktestError>)
    requires ValidDateTime(env.now)
    ensures forall p :: f(p) == BacktestOf(env, client, service, p, initialValue)
  {
    p => BacktestOf(env, client, service, p, initialValue)
  }

  /** `successful_results`: the successful entries, in order, unwrapped. */
  function Successful(results: Dict<Result<BacktestReport, BacktestError>>): (s: Dict<BacktestReport>)
    ensures |s| <= |results|
  {
    if results == [] then []
    else
      var rest := Successful(results[1..]);
      if results[0].1.Ok? then [(results[0].0, results[0].1.value)] + rest else rest
  }

  /** In a dict of results, a period is among the successful ones exactly when its
      result is a success. */
  lemma {:induction false} SuccessfulHas(results: Dict<Result<BacktestReport, BacktestError>>, p: string)
    requires DistinctKeys(results)
    ensures Has(Successful(results), p) <==> Get(results, p).Some? && Get(results, p).value.Ok?
  {
    if results != [] {
      var rest := results[1..];
      assert DistinctKeys(rest) by {
        forall i, j | 0 <= i < j < |rest| ensures rest[i].0 != rest[j].0 {
          assert rest[i] == results[i + 1] && rest[j] == results[j + 1];
        }
      }
      SuccessfulHas(rest, p);
      if results[0].0 == p {
        GetSome(rest, p);
      }
    }
  }

  function ComparisonOf(report: BacktestReport): Comparison
  {
    var metrics := report.performance.metrics;
    Comparison(metrics.cagr, metrics.totalReturn, metrics.maxDrawdown, metrics.sharpeRatio)
  }

  /** `summary["comparison"]` after the first n successful entries. */
  function Comparisons(successful: Dict<BacktestReport>, n: nat): (c: Dict<Comparison>)
    requires n <= |successful|
  {
    if n == 0 then []
    else
      var c := Comparisons(successful, n - 1);
      Put(c, successful[n - 1].0, ComparisonOf(successful[n - 1].1))
  }

  /** The comparison has a row for exactly the periods among the successful ones. */
  lemma {:induction false} ComparisonsHas(successful: Dict<BacktestReport>, n: nat, p: string)
    requires n <= |successful|
    ensures Has(Comparisons(successful, n), p) <==> exists i :: 0 <= i < n && successful[i].0 == p
  {
    if n > 0 {
      var before := Comparisons(successful, n - 1);
      var k := successful[n - 1].0;
      assert Comparisons(successful, n) == Put(before, k, ComparisonOf(successful[n - 1].1));
      ComparisonsHas(successful, n - 1, p);
      if p != k {
        assert Has(Comparisons(successful, n), p) == Has(before, p);
        if exists i :: 0 <= i < n && successful[i].0 == p {
          var i :| 0 <= i < n && successful[i].0 == p;
          assert i < n - 1;
        }
      }
    }
  }

  /** run_multiple_period_backtest, given the service's two collaborators. */
  function MultipleOf(env: Env, client: Option<AlpacaClient>, service: Option<AllocationService>,
                      periods: Option<seq<string>>, initialValue: real): (r: MultiReport)
    requires ValidDateTime(env.now)
    ensures r.success <==> r.summary.Compared?
  {
    var ps := Periods(periods);
    var results := PutEach(Outcome(env, client, service, initialValue), ps, |ps|);
    var successful := Successful(results);
    var summary :=
      if successful != [] then Compared(Keys(successful), Comparisons(successful, |successful|))
      else NoSuccessfulResults;
    MultiReport(|successful| > 0, results, summary)
  }

  /** The multi-period run reports one result per requested period (the default
      being all three), succeeds exactly when some period succeeded, and compares
      exactly the periods that succeeded. */
  lemma MultipleSummarisesSuccesses(env: Env, client: Option<AlpacaClient>, service: Option<AllocationService>,
                                    periods: Option<seq<string>>, initialValue: real)
    requires ValidDateTime(env.now)
    ensures var r := MultipleOf(env, client, service, periods, initialValue);
      && DistinctKeys(r.results)
      && (forall p :: Get(r.results, p)
            == if p in Periods(periods) then Some(BacktestOf(env, client, service, p, initialValue)) else None)
      && (r.success <==> r.summary.Compared?)
      && (r.success <==> exists p :: p in Periods(periods) && BacktestOf(env, client, service, p, initialValue).Ok?)
      && (r.summary.Compared? ==> forall p ::
            Has(r.summary.comparison, p) <==> p in Periods(periods) && BacktestOf(env, client, service, p, initialValue).Ok?)
  {
    var ps := Periods(periods);
    var outcome := Outcome(env, client, service, initialValue);
    var results := PutEach(outcome, ps, |ps|);
    var successful := Successful(results);
    forall p
      ensures Has(successful, p) <==> p in ps && BacktestOf(env, client, service, p, initialValue).Ok?
      ensures Get(results, p) == if p in ps then Some(BacktestOf(env, client, service, p, initialValue)) else None
      ensures successful != [] ==> (Has(Comparisons(successful, |successful|), p) <==> Has(successful, p))
    {
      PeriodOutcome(env, client, service, ps, initialValue, p);
    }
    if successful != [] {
      assert Has(successful, successful[0].0);
    }
  }

  /** One period's entry in the results, the successful results and the comparison. */
  lemma PeriodOutcome(env: Env, client: Option<AlpacaClient>, service: Option<AllocationService>,
                      ps: seq<string>, initialValue: real, p: string)
    requires ValidDateTime(env.now)
    ensures var results := PutEach(Outcome(env, client, service, initialValue), ps, |ps|);
      var successful := Successful(results);
      && (Get(results, p) == if p in ps then Some(BacktestOf(env, client, service, p, initialValue)) else None)
      && (Has(successful, p) <==> p in ps && BacktestOf(env, client, service, p, initialValue).Ok?)
      && (Has(Comparisons(successful, |successful|), p) <==> Has(successful, p))
  {
    var outcome := Outcome(env, client, service, initialValue);
    var results := PutEach(outcome, ps, |ps|);
    var successful := Successful(results);
    PutEachGet(outcome, ps, |ps|, p);
    assert p in ps <==> exists i :: 0 <= i < |ps| && ps[i] == p;
    SuccessfulHas(results, p);
    GetSome(successful, p);
    ComparisonsHas(successful, |successful|, p);
  }

  /** The multi-period run with no list is the run over all supported periods. */
  lemma DefaultPeriods(env: Env, client: Option<AlpacaClient>, service: Option<AllocationService>, initialValue: real)
    requires ValidDateTime(env.now)
    ensures MultipleOf(env, client, service, None, initialValue)
         == MultipleOf(env, client, service, Some([OneYear, FiveYears, TenYears]), initialValue)
  {
  }

  // ---------------------------------------------------------------------------
  // The service object

  /** The date-selection loop of calculate_portfolio_performance. */
  method CommonDatesLoop(allocation: Allocation, history: History) returns (allDates: set<int>)
    ensures allDates == CommonDates(allocation, history, |history|)
  {
    allDates := {};
    for k := 0 to |history|
      invariant allDates == CommonDates(allocation, history, k)
    {
      var (symbol, data) := history[k];
      if Has(allocation, symbol) && data != [] {
        var symbolDates := DatesOf(data);
        if allDates == {} {
          allDates := symbolDates;
        } else {
          allDates := allDates * symbolDates;
        }
      }
    }
  }

  /** The end of calculate_portfolio_performance: the metrics of the value series. */
  method MeasurePerformance(m: RealMath, dates: seq<int>, values: seq<real>, dailyReturns: seq<real>)
    returns (r: Result<Performance, BacktestError>)
    requires |values| == |dates| && dailyReturns == DailyReturns(values)
    ensures r == Summarise(m, dates, values)
  {
    if |values| < 2 {
      return Err(InsufficientData);
    }
    var startValue := values[0];
    var endValue := values[|values| - 1];
    var years := |dates| as real / TradingDaysPerYear;
    var cagr := Cagr(m, startValue, endValue, years);
    var maxDrawdown := CalculateMaxDrawdown(values);
    if maxDrawdown.Err? {
      return Err(CalculationFailed);
    }
    var sharpeRatio := SharpeRatio(m, dailyReturns, DefaultRiskFreeRate);
    var totalReturn := if startValue > 0.0 then (endValue - startValue) / startValue else 0.0;
    var metrics := Metrics(cagr, totalReturn, maxDrawdown.value, sharpeRatio, startValue, endValue, years, |dates|);
    r := Ok(Performance(metrics, values, dates, dailyReturns));
  }

  class BacktestService {
    /** Whether the alpaca-py library could be imported. */
    const alpacaAvailable: bool
    var alpacaClient: Option<AlpacaClient>
    var allocationService: Option<AllocationService>
    /** The temporary `_shares` attribute; None while it is absent. */
    var shares: Option<map<string, real>>

    /** Between calls the temporary share counts do not exist. */
    predicate Valid()
      reads this
    {
      shares.None?
    }

    constructor (alpacaAvailable: bool)
      ensures Valid()
      ensures this.alpacaAvailable == alpacaAvailable
      ensures alpacaClient.None? && allocationService.None?
    {
      this.alpacaAvailable := alpacaAvailable;
      alpacaClient := None;
      allocationService := None;
      shares := None;
    }

    /** set_alpaca_credentials; `clientFailure` is the message of the exception the
        client constructor raises, if it does. */
    method SetAlpacaCredentials(apiKey: string, secretKey: string, paper: bool, clientFailure: Option<string>)
      returns (r: Result<string, SetupError>)
      modifies this
      ensures !alpacaAvailable ==> r == Err(LibraryMissing) && alpacaClient == old(alpacaClient)
      ensures alpacaAvailable && clientFailure.Some? ==>
        r == Err(CredentialsRejected(clientFailure.value)) && alpacaClient == old(alpacaClient)
      ensures alpacaAvailable && clientFailure.None? ==>
        r == Ok(if paper then "paper" else "live") && alpacaClient == Some(AlpacaClient(apiKey, secretKey))
      ensures allocationService == old(allocationService) && shares == old(shares)
    {
      if !alpacaAvailable {
        return Err(LibraryMissing);
      }
      if clientFailure.Some? {
        return Err(CredentialsRejected(clientFailure.value));
      }
      alpacaClient := Some(AlpacaClient(apiKey, secretKey));
      r := Ok(if paper then "paper" else "live");
    }

    /** set_allocation_service: a plain assignment, so it always reports success
        (even for None, which leaves the service unset). */
    method SetAllocationService(service: Option<AllocationService>) returns (r: Result<string, SetupError>)
      modifies this
      ensures r == Ok(AllocationServiceSet)
      ensures allocationService == service
      ensures alpacaClient == old(alpacaClient) && shares == old(shares)
    {
      allocationService := service;
      r := Ok(AllocationServiceSet);
    }

    /** is_configured: both collaborators are set, as every successful backtest
        needs (see `RunBacktest`). */
    predicate IsConfigured()
      reads this
      ensures IsConfigured() <==> alpacaClient.Some? && allocationService.Some?
    {
      alpacaClient.Some? && allocationService.Some?
    }

    /** get_service_status */
    function GetServiceStatus(): (s: ServiceStatus)
      reads this
      ensures s.fullyConfigured <==> s.alpacaConfigured && s.allocationServiceConfigured
      ensures s.alpacaConfigured <==> alpacaClient.Some?
      ensures s.allocationServiceConfigured <==> allocationService.Some?
      ensures s.alpacaAvailable == alpacaAvailable
    {
      ServiceStatus(alpacaClient.Some?, allocationService.Some?, IsConfigured(), alpacaAvailable)
    }

    /** calculate_portfolio_performance: the body runs with `_shares` absent, and
        the `finally` clause deletes it on every path. */
    method CalculatePortfolioPerformance(m: RealMath, allocation: Allocation, history: History, initialValue: real)
      returns (r: Result<Performance, BacktestError>)
      requires Valid()
      modifies this
      ensures Valid()
      ensures alpacaClient == old(alpacaClient) && allocationService == old(allocationService)
      ensures r == PortfolioPerformance(m, allocation, history, initialValue)
    {
      r := PerformanceAttempt(m, allocation, history, initialValue);
      shares := None;
    }

    /** The `try` block of calculate_portfolio_performance. */
    method PerformanceAttempt(m: RealMath, allocation: Allocation, history: History, initialValue: real)
      returns (r: Result<Performance, BacktestError>)
      requires shares.None?
      modifies this
      ensures alpacaClient == old(alpacaClient) && allocationService == old(allocationService)
      ensures r == PortfolioPerformance(m, allocation, history, initialValue)
    {
      if allocation == [] || history == [] {
        return Err(MissingData);
      }
      var total := SumValues(allocation);
      if total <= 0.0 {
        return Err(InvalidAllocation);
      }
      var allDates := CommonDatesLoop(allocation, history);
      if allDates == {} {
        return Err(NoCommonDates);
      }
      var dates := SortedDays(allDates);
      var daily := DailyLoop(allocation, history, total, initialValue, dates);
      if daily.Err? {
        return Err(daily.error);
      }
      var (values, dailyReturns) := daily.value;
      r := MeasurePerformance(m, dates, values, dailyReturns);
    }

    /** The loop over the sorted dates: the value on each date, and a daily return
        after each positive value. */
    method DailyLoop(allocation: Allocation, history: History, total: real, initialValue: real, dates: seq<int>)
      returns (r: Result<(seq<real>, seq<real>), BacktestError>)
      requires shares.None? && total != 0.0
      modifies this
      ensures alpacaClient == old(alpacaClient) && allocationService == old(allocationService)
      ensures match Simulate(allocation, history, total, initialValue, dates, |dates|)
        case Err(e) => r == Err(e)
        case Ok(run) => r == Ok((run.values, DailyReturns(run.values)))
    {
      var values: seq<real> := [];
      var dailyReturns: seq<real> := [];
      for i := 0 to |dates|
        invariant Simulate(allocation, history, total, initialValue, dates, i) == Ok(Run(shares, values))
        invariant dailyReturns == DailyReturns(values)
        invariant alpacaClient == old(alpacaClient) && allocationService == old(allocationService)
      {
        var value := ValueOn(allocation, history, total, initialValue, dates[i], i == 0);
        if value.Err? {
          SimulateErrPersists(allocation, history, total, initialValue, dates, i + 1, |dates|);
          return Err(value.error);
        }
        ReturnsAppend(values, value.value);
        if i > 0 && values[i - 1] > 0.0 {
          dailyReturns := dailyReturns + [(value.value - values[i - 1]) / values[i - 1]];
        }
        values := values + [value.value];
      }
      r := Ok((values, dailyReturns));
    }

    /** One date of the daily loop: the value of the portfolio on `date`.  On the
        first date it also buys the share counts into `_shares`. */
    method ValueOn(allocation: Allocation, history: History, total: real, initialValue: real, date: int, first: bool)
      returns (r: Result<real, BacktestError>)
      requires total != 0.0
      requires first ==> shares.None?
      modifies this
      ensures alpacaClient == old(alpacaClient) && allocationService == old(allocationService)
      ensures !first ==> shares == old(shares) && r == Ok(DayValue(allocation, history, shares, date, |allocation|))
      ensures first ==> var st := FirstDay(allocation, history, total, initialValue, date, |allocation|);
        (st.Err? ==> r == Err(st.error)) && (st.Ok? ==> r == Ok(st.value.value) && shares == st.value.shares)
    {
      var value := 0.0;
      for j := 0 to |allocation|
        invariant alpacaClient == old(alpacaClient) && allocationService == old(allocationService)
        invariant !first ==> shares == old(shares) && value == DayValue(allocation, history, shares, date, j)
        invariant first ==> FirstDay(allocation, history, total, initialValue, date, j) == Ok(DayState(shares, value))
      {
        var (symbol, currentValue) := allocation[j];
        var price := PriceOn(history, symbol, date);
        ghost var before := DayState(shares, value);
        if price.Some? {
          var allocationPct := currentValue / total;
          if first {
            if shares.None? {
              shares := Some(map[]);
            }
            if price.value == 0.0 {
              FirstDayFails(allocation, history, total, initialValue, date, j + 1);
              FirstDayFails(allocation, history, total, initialValue, date, |allocation|);
              return Err(CalculationFailed);
            }
            var count := allocationPct * initialValue / price.value;
            assert count == ShareCount(currentValue, total, initialValue, price.value);
            shares := Some(shares.value[symbol := count]);
            assert shares == Some(Held(before.shares)[symbol := count]);
          }
          if shares.Some? && symbol in shares.value {
            value := value + shares.value[symbol] * price.value;
          }
          if first {
            FirstDayBuys(allocation, history, total, initialValue, date, j, price.value);
            assert FirstDay(allocation, history, total, initialValue, date, j + 1).value.shares == shares;
            assert FirstDay(allocation, history, total, initialValue, date, j + 1).value.value == value;
          }
        } else {
          assert first ==> FirstDay(allocation, history, total, initialValue, date, j + 1) == Ok(DayState(shares, value));
        }
      }
      r := Ok(value);
    }

    /** run_backtest */
    method RunBacktest(env: Env, period: string, initialValue: real) returns (r: Result<BacktestReport, BacktestError>)
      requires Valid() && ValidDateTime(env.now)
      modifies this
      ensures Valid()
      ensures alpacaClient == old(alpacaClient) && allocationService == old(allocationService)
      ensures r == BacktestOf(env, alpacaClient, allocationService, period, initialValue)
      ensures r.Ok? ==> IsConfigured()
    {
      if period !in SupportedPeriods {
        return Err(BacktestError.UnsupportedPeriod(period));
      }
      var allocationResult := PortfolioAllocation(allocationService);
      if allocationResult.Err? {
        return Err(allocationResult.error);
      }
      var allocation := allocationResult.value;
      if allocation == [] {
        return Err(NoCurrentAllocation);
      }
      var range := GetDateRange(period, env.now);
      if range.Err? {
        return Err(RunFailed);
      }
      var (start, end) := range.value;
      var symbols := Keys(allocation);
      var historical := HistoricalData(alpacaClient, symbols, start, end, env.fetch);
      if historical.Err? {
        return Err(historical.error);
      }
      var performance := CalculatePortfolioPerformance(env.m, allocation, historical.value, initialValue);
      if performance.Err? {
        return Err(performance.error);
      }
      r := Ok(BacktestReport(period, start, end, initialValue, symbols, allocation, performance.value));
    }

    /** run_multiple_period_backtest */
    method RunMultiplePeriodBacktest(env: Env, periods: Option<seq<string>>, initialValue: real) returns (r: MultiReport)
      requires Valid() && ValidDateTime(env.now)
      modifies this
      ensures Valid()
      ensures alpacaClient == old(alpacaClient) && allocationService == old(allocationService)
      ensures r == MultipleOf(env, alpacaClient, allocationService, periods, initialValue)
    {
      var ps := Periods(periods);
      var results: Dict<Result<BacktestReport, BacktestError>> := [];
      for i := 0 to |ps|
        invariant Valid()
        invariant alpacaClient == old(alpacaClient) && allocationService == old(allocationService)
        invariant results == PutEach(Outcome(env, alpacaClient, allocationService, initialValue), ps, i)
      {
        var result := RunBacktest(env, ps[i], initialValue);
        results := Put(results, ps[i], result);
      }
      var successful := Successful(results);
      var summary;
      if successful != [] {
        var comparison: Dict<Comparison> := [];
        for j := 0 to |successful|
          invariant comparison == Comparisons(successful, j)
        {
          var (period, report) := successful[j];
          comparison := Put(comparison, period, ComparisonOf(report));
        }
        summary := Compared(Keys(successful), comparison);
      } else {
        summary := NoSuccessfulResults;
      }
      r := MultiReport(|successful| > 0, results, summary);
    }
  }
}
