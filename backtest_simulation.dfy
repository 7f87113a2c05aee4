/** The buy-and-hold simulation behind `BacktestService.calculate_portfolio_performance`
    (portfolio_insight/portfolio/backtest.py), written as functions of the
    allocation and the price history: which dates are used, the share counts fixed
    on the first date, the daily portfolio values and returns, and the metrics.
    The class in module Backtest runs the same computation step by step. */
module BacktestSimulation {
  import opened Basics
  import opened Dicts
  import opened BacktestMetrics

  /** One daily bar of a symbol's history: its trading date as a day number and
      its closing price (the other fields of a bar are never read here). */
  datatype Bar = Bar(date: int, close: real)

  /** `historical_data`: symbol -> list of bars. */
  type History = Dict<seq<Bar>>

  /** `allocation`: symbol -> current dollar value held. */
  type Allocation = Dict<real>

  /** The ways a backtest can fail; each stands for one error message of the source. */
  datatype BacktestError =
    | MissingData            // "Missing allocation or historical data"
    | InvalidAllocation      // "Invalid portfolio allocation - total value must be positive"
    | NoCommonDates          // "No common dates found across symbols"
    | CalculationFailed      // a ZeroDivisionError caught as "Failed to calculate portfolio performance"
    | InsufficientData       // "Insufficient data for performance calculation"
    | UnsupportedPeriod(period: string)
    | AllocationServiceNotSet
    | AllocationFailed(message: string)
    | NoCurrentAllocation
    | AlpacaNotConfigured
    | NoSymbols
    | FetchFailed(message: string)
    | RunFailed              // any other exception, caught as "Failed to run backtest"

  datatype Metrics = Metrics(
    cagr: real,
    totalReturn: real,
    maxDrawdown: real,
    sharpeRatio: real,
    startValue: real,
    endValue: real,
    years: real,
    tradingDays: nat)

  datatype Performance = Performance(
    metrics: Metrics,
    portfolioValues: seq<real>,
    dates: seq<int>,
    dailyReturns: seq<real>)

  // ---------------------------------------------------------------------------
  // Choosing the dates

  /** `set(item["date"] for item in data)` */
  function DatesOf(bars: seq<Bar>): set<int>
  {
    set b | b in bars :: b.date
  }

  /** A history entry takes part in the date selection when its symbol is allocated
      and its list of bars is not empty. */
  predicate Counts(allocation: Allocation, entry: (string, seq<Bar>))
  {
    Has(allocation, entry.0) && entry.1 != []
  }

  /** The running date set after the first n entries of the history.  A counted
      entry replaces the set when it is empty and intersects it otherwise. */
  function CommonDates(allocation: Allocation, history: History, n: nat): (r: set<int>)
    requires n <= |history|
    ensures forall d :: d in r ==> exists i :: 0 <= i < n && Counts(allocation, history[i]) && d in DatesOf(history[i].1)
  {
    if n == 0 then {}
    else
      var acc := CommonDates(allocation, history, n - 1);
      if Counts(allocation, history[n - 1]) then
        if acc == {} then DatesOf(history[n - 1].1) else acc * DatesOf(history[n - 1].1)
      else acc
  }

  /** Date d is listed by every counted entry among the first n. */
  predicate InAll(allocation: Allocation, history: History, n: nat, d: int)
    requires n <= |history|
  {
    forall i :: 0 <= i < n && Counts(allocation, history[i]) ==> d in DatesOf(history[i].1)
  }

  predicate AnyCounts(allocation: Allocation, history: History, n: nat)
    requires n <= |history|
  {
    exists i :: 0 <= i < n && Counts(allocation, history[i])
  }

  lemma InAllStep(allocation: Allocation, history: History, n: nat, x: int)
    requires 0 < n <= |history|
    ensures InAll(allocation, history, n, x)
        <==> InAll(allocation, history, n - 1, x)
             && (Counts(allocation, history[n - 1]) ==> x in DatesOf(history[n - 1].1))
  {
  }

  lemma AnyCountsStep(allocation: Allocation, history: History, n: nat)
    requires 0 < n <= |history|
    ensures AnyCounts(allocation, history, n)
        <==> AnyCounts(allocation, history, n - 1) || Counts(allocation, history[n - 1])
  {
    if Counts(allocation, history[n - 1]) {
      assert AnyCounts(allocation, history, n);
    }
    if AnyCounts(allocation, history, n) && !Counts(allocation, history[n - 1]) {
      var i :| 0 <= i < n && Counts(allocation, history[i]);
      assert i < n - 1;
    }
  }

  lemma {:induction false} NothingCountedNoDates(allocation: Allocation, history: History, n: nat)
    requires n <= |history|
    requires !AnyCounts(allocation, history, n)
    ensures CommonDates(allocation, history, n) == {}
  {
    if n > 0 {
      AnyCountsStep(allocation, history, n);
      NothingCountedNoDates(allocation, history, n - 1);
    }
  }

  /** Given a date that every counted entry lists, a date survives the fold
      exactly when every counted entry lists it too. */
  lemma {:induction false} SharedDate(allocation: Allocation, history: History, n: nat, d: int, x: int)
    requires n <= |history|
    requires InAll(allocation, history, n, d)
    ensures x in CommonDates(allocation, history, n)
        <==> AnyCounts(allocation, history, n) && InAll(allocation, history, n, x)
  {
    if n > 0 {
      InAllStep(allocation, history, n, x);
      InAllStep(allocation, history, n, d);
      AnyCountsStep(allocation, history, n);
      SharedDate(allocation, history, n - 1, d, x);
      SharedDate(allocation, history, n - 1, d, d);
      if !AnyCounts(allocation, history, n - 1) {
        NothingCountedNoDates(allocation, history, n - 1);
      }
    }
  }

  /** Whenever some date is shared by every counted symbol, the fold computes the
      strict intersection of their date sets. */
  lemma SharedDateGivesIntersection(allocation: Allocation, history: History, n: nat, d: int)
    requires n <= |history|
    requires InAll(allocation, history, n, d)
    ensures forall x :: x in CommonDates(allocation, history, n)
                    <==> AnyCounts(allocation, history, n) && InAll(allocation, history, n, x)
  {
    forall x
      ensures x in CommonDates(allocation, history, n)
          <==> AnyCounts(allocation, history, n) && InAll(allocation, history, n, x)
    {
      SharedDate(allocation, history, n, d, x);
    }
  }

  /** The reset on an empty running set: A and B share no date, yet the result is
      C's dates, so a date that A never traded is used. */
  lemma EmptyIntersectionResets(allocation: Allocation, history: History)
    requires allocation == [("A", 1.0), ("B", 1.0), ("C", 1.0)]
    requires history == [("A", [Bar(1, 10.0)]), ("B", [Bar(2, 10.0)]), ("C", [Bar(2, 10.0)])]
    ensures CommonDates(allocation, history, 3) == {2}
    ensures !InAll(allocation, history, 3, 2)
  {
    assert allocation[1..] == [("B", 1.0), ("C", 1.0)];
    assert allocation[2..] == [("C", 1.0)];
    assert "A" != "B" && "A" != "C" && "B" != "C";
    assert Get(allocation, "B") == Get(allocation[1..], "B") == Some(1.0);
    assert Get(allocation, "C") == Get(allocation[1..], "C") == Get(allocation[2..], "C") == Some(1.0);
    assert Has(allocation, "A") && Has(allocation, "B") && Has(allocation, "C");
    assert DatesOf(history[0].1) == {1};
    assert DatesOf(history[1].1) == {2};
    assert DatesOf(history[2].1) == {2};
    assert CommonDates(allocation, history, 1) == {1};
    assert CommonDates(allocation, history, 2) == {};
    assert 2 !in DatesOf(history[0].1);
  }

  /** The least element of a non-empty set of integers. */
  lemma {:induction false} LeastElement(s: set<int>) returns (m: int)
    requires s != {}
    ensures m in s && forall y :: y in s ==> m <= y
    decreases s
  {
    HasElement(s);
    var x :| x in s;
    if s - {x} == {} {
      LeastOfOne(s, x);
      m := x;
    } else {
      var rest := LeastElement(s - {x});
      LeastOfTwo(s, x, rest);
      m := if x < rest then x else rest;
    }
  }

  lemma HasLeast(s: set<int>)
    requires s != {}
    ensures exists m :: m in s && forall y :: y in s ==> m <= y
  {
    var m := LeastElement(s);
  }

  /** A set that is not empty has an element. */
  lemma HasElement(s: set<int>)
    requires s != {}
    ensures exists x :: x in s
  {
    if forall x :: x !in s {
      assert false;
    }
  }

  lemma LeastOfOne(s: set<int>, x: int)
    requires x in s && s - {x} == {}
    ensures forall y :: y in s ==> x <= y
  {
    forall y | y in s ensures x <= y {
      assert y !in s - {x};
    }
  }

  lemma LeastOfTwo(s: set<int>, x: int, m: int)
    requires x in s && m in s
    requires forall y :: y in s - {x} ==> m <= y
    ensures forall y :: y in s ==> (if x < m then x else m) <= y
  {
    forall y | y in s ensures (if x < m then x else m) <= y {
      if y != x { assert y in s - {x}; }
    }
  }

  function Least(s: set<int>): (m: int)
    requires s != {}
    ensures m in s && forall y :: y in s ==> m <= y
  {
    HasLeast(s);
    var m :| m in s && forall y :: y in s ==> m <= y;
    m
  }

  /** `sorted(all_dates)` */
  function SortedDays(s: set<int>): (r: seq<int>)
    ensures |r| == |s|
    ensures forall x :: x in r <==> x in s
    ensures forall i, j :: 0 <= i < j < |r| ==> r[i] < r[j]
    decreases |s|
  {
    if s == {} then []
    else
      var m := Least(s);
      var rest := SortedDays(s - {m});
      PrependLeast(s, m, rest);
      [m] + rest
  }

  /** Putting the least element in front of the sorted rest sorts the whole set. */
  lemma PrependLeast(s: set<int>, m: int, rest: seq<int>)
    requires m in s && forall y :: y in s ==> m <= y
    requires |rest| == |s - {m}|
    requires forall x :: x in rest <==> x in s - {m}
    requires forall i, j :: 0 <= i < j < |rest| ==> rest[i] < rest[j]
    ensures |[m] + rest| == |s|
    ensures forall x :: x in [m] + rest <==> x in s
    ensures forall i, j :: 0 <= i < j < |[m] + rest| ==> ([m] + rest)[i] < ([m] + rest)[j]
  {
    var r := [m] + rest;
    forall i, j | 0 <= i < j < |r|
      ensures r[i] < r[j]
    {
      assert r[j] == rest[j - 1] && r[j] in s - {m};
      if i > 0 {
        assert r[i] == rest[i - 1];
      }
    }
  }

  // ---------------------------------------------------------------------------
  // Prices and share counts

  /** The closing price on a date, from `{item["date"]: item for item in data}`:
      when several bars carry the date, the last one wins. */
  function CloseOn(bars: seq<Bar>, date: int): (r: Option<real>)
    ensures r.None? <==> date !in DatesOf(bars)
    ensures r.Some? ==> exists i :: 0 <= i < |bars| && bars[i] == Bar(date, r.value)
                                    && forall j :: i < j < |bars| ==> bars[j].date != date
  {
    if bars == [] then None
    else
      var last := bars[|bars| - 1];
      if last.date == date then Some(last.close)
      else
        var r := CloseOn(bars[..|bars| - 1], date);
        assert DatesOf(bars) == DatesOf(bars[..|bars| - 1]) + {last.date} by {
          assert bars == bars[..|bars| - 1] + [last];
        }
        r
  }

  /** The price of a symbol on a date, when its history has a bar for it. */
  function PriceOn(history: History, symbol: string, date: int): Option<real>
  {
    match Get(history, symbol)
    case None => None
    case Some(bars) => if bars == [] then None else CloseOn(bars, date)
  }

  /** `(allocation_pct * initial_value) / first_price` */
  function ShareCount(currentValue: real, total: real, initialValue: real, price: real): real
    requires total != 0.0 && price != 0.0
  {
    currentValue / total * initialValue / price
  }

  /** `self._shares`, read as an empty dict while the attribute is absent. */
  function Held(shares: Option<map<string, real>>): map<string, real>
  {
    if shares.Some? then shares.value else map[]
  }

  /** The shares attribute and the portfolio value part way through one date. */
  datatype DayState = DayState(shares: Option<map<string, real>>, value: real)

  /** The first date, after the first n entries of the allocation: each priced
      symbol buys its fraction of the initial value, a zero price divides by zero,
      and the value adds each bought position at that price. */
  function FirstDay(allocation: Allocation, history: History, total: real, initialValue: real, date: int, n: nat)
    : Result<DayState, BacktestError>
    requires n <= |allocation| && total != 0.0
  {
    if n == 0 then Ok(DayState(None, 0.0))
    else
      match FirstDay(allocation, history, total, initialValue, date, n - 1)
      case Err(e) => Err(e)
      case Ok(st) =>
        var (symbol, currentValue) := allocation[n - 1];
        match PriceOn(history, symbol, date)
        case None => Ok(st)
        case Some(price) =>
          if price == 0.0 then Err(CalculationFailed)
          else
            var held := Held(st.shares)[symbol := ShareCount(currentValue, total, initialValue, price)];
            Ok(DayState(Some(held), st.value + held[symbol] * price))
  }

  /** One step of the first date: a symbol with a non-zero price buys its shares. */
  lemma FirstDayBuys(allocation: Allocation, history: History, total: real, initialValue: real, date: int, n: nat, price: real)
    requires n < |allocation| && total != 0.0
    requires FirstDay(allocation, history, total, initialValue, date, n).Ok?
    requires PriceOn(history, allocation[n].0, date) == Some(price) && price != 0.0
    ensures var st := FirstDay(allocation, history, total, initialValue, date, n).value;
      var held := Held(st.shares)[allocation[n].0 := ShareCount(allocation[n].1, total, initialValue, price)];
      var next := FirstDay(allocation, history, total, initialValue, date, n + 1);
      && next.Ok?
      && next.value.shares == Some(held)
      && next.value.value == st.value + held[allocation[n].0] * price
  {
  }

  /** A later date, after the first n entries of the allocation: each priced symbol
      that holds shares adds shares times price. */
  function DayValue(allocation: Allocation, history: History, shares: Option<map<string, real>>, date: int, n: nat): real
    requires n <= |allocation|
  {
    if n == 0 then 0.0
    else
      var acc := DayValue(allocation, history, shares, date, n - 1);
      var symbol := allocation[n - 1].0;
      match PriceOn(history, symbol, date)
      case None => acc
      case Some(price) =>
        if shares.Some? && symbol in shares.value then acc + shares.value[symbol] * price else acc
  }

  /** The allocated dollars among the first n entries whose symbol is priced on the date. */
  function PricedTotal(allocation: Allocation, history: History, date: int, n: nat): real
    requires n <= |allocation|
  {
    if n == 0 then 0.0
    else
      var acc := PricedTotal(allocation, history, date, n - 1);
      if PriceOn(history, allocation[n - 1].0, date).Some? then acc + allocation[n - 1].1 else acc
  }

  /** The part of the initial value that `amount` of the allocated total stands for. */
  function PartOfInitial(amount: real, total: real, initialValue: real): real
    requires total != 0.0
  {
    amount / total * initialValue
  }

  /** Buying a symbol's fraction of the initial value at a non-zero price adds
      exactly that fraction to the value. */
  lemma BuyStep(value: real, before: real, currentValue: real, total: real, initialValue: real, price: real)
    requires total != 0.0 && price != 0.0
    requires value == PartOfInitial(before, total, initialValue)
    ensures value + ShareCount(currentValue, total, initialValue, price) * price
         == PartOfInitial(before + currentValue, total, initialValue)
  {
    assert ShareCount(currentValue, total, initialValue, price) * price == currentValue / total * initialValue;
  }

  lemma NothingBought(total: real, initialValue: real)
    requires total != 0.0
    ensures 0.0 == PartOfInitial(0.0, total, initialValue)
  {
  }

  /** The first date is worth the initial value times the allocation fraction of
      the symbols priced on it. */
  lemma {:induction false} FirstDayValue(allocation: Allocation, history: History, total: real, initialValue: real, date: int, n: nat)
    requires n <= |allocation| && total != 0.0
    requires FirstDay(allocation, history, total, initialValue, date, n).Ok?
    ensures FirstDay(allocation, history, total, initialValue, date, n).value.value
         == PartOfInitial(PricedTotal(allocation, history, date, n), total, initialValue)
  {
    if n > 0 {
      FirstDayValue(allocation, history, total, initialValue, date, n - 1);
      var st := FirstDay(allocation, history, total, initialValue, date, n - 1).value;
      var (symbol, currentValue) := allocation[n - 1];
      var before := PricedTotal(allocation, history, date, n - 1);
      var value := FirstDay(allocation, history, total, initialValue, date, n).value.value;
      match PriceOn(history, symbol, date)
      case None =>
        assert value == st.value;
        assert PricedTotal(allocation, history, date, n) == before;
      case Some(price) =>
        assert value == st.value + ShareCount(currentValue, total, initialValue, price) * price;
        assert PricedTotal(allocation, history, date, n) == before + currentValue;
        BuyStep(st.value, before, currentValue, total, initialValue, price);
    } else {
      NothingBought(total, initialValue);
    }
  }

  /** The first date fails exactly when a priced symbol has a zero price. */
  lemma {:induction false} FirstDayFails(allocation: Allocation, history: History, total: real, initialValue: real, date: int, n: nat)
    requires n <= |allocation| && total != 0.0
    ensures FirstDay(allocation, history, total, initialValue, date, n).Err?
        <==> exists i :: 0 <= i < n && PriceOn(history, allocation[i].0, date) == Some(0.0)
    ensures FirstDay(allocation, history, total, initialValue, date, n).Err?
        ==> FirstDay(allocation, history, total, initialValue, date, n).error == CalculationFailed
  {
    if n > 0 {
      FirstDayFails(allocation, history, total, initialValue, date, n - 1);
      if PriceOn(history, allocation[n - 1].0, date) == Some(0.0) {
        assert FirstDay(allocation, history, total, initialValue, date, n).Err?;
      }
    }
  }

  /** When every allocated symbol is priced on the first date, that date is worth
      exactly the initial value. */
  lemma {:induction false} FullyPricedTotal(allocation: Allocation, history: History, date: int, n: nat)
    requires n <= |allocation|
    requires forall i :: 0 <= i < n ==> PriceOn(history, allocation[i].0, date).Some?
    ensures PricedTotal(allocation, history, date, n) == SumValues(allocation[..n])
  {
    if n > 0 {
      FullyPricedTotal(allocation, history, date, n - 1);
      assert allocation[..n] == allocation[..n - 1] + [allocation[n - 1]];
      SumValuesAppend(allocation[..n - 1], allocation[n - 1].0, allocation[n - 1].1);
    }
  }

  // ---------------------------------------------------------------------------
  // The daily loop

  /** The shares attribute and the portfolio values the loop over dates builds. */
  datatype Run = Run(shares: Option<map<string, real>>, values: seq<real>)

  /** The loop over the sorted dates after its first n iterations. */
  function Simulate(allocation: Allocation, history: History, total: real, initialValue: real, dates: seq<int>, n: nat)
    : (r: Result<Run, BacktestError>)
    requires n <= |dates| && total != 0.0
    ensures r.Ok? ==> |r.value.values| == n
  {
    if n == 0 then Ok(Run(None, []))
    else
      match Simulate(allocation, history, total, initialValue, dates, n - 1)
      case Err(e) => Err(e)
      case Ok(run) =>
        if n == 1 then
          match FirstDay(allocation, history, total, initialValue, dates[0], |allocation|)
          case Err(e) => Err(e)
          case Ok(st) => Ok(Run(st.shares, [st.value]))
        else
          Ok(Run(run.shares, run.values + [DayValue(allocation, history, run.shares, dates[n - 1], |allocation|)]))
  }

  /** Once the loop has failed it stays failed with the same error. */
  lemma {:induction false} SimulateErrPersists(allocation: Allocation, history: History, total: real, initialValue: real, dates: seq<int>, n: nat, k: nat)
    requires n <= k <= |dates| && total != 0.0
    requires Simulate(allocation, history, total, initialValue, dates, n).Err?
    ensures Simulate(allocation, history, total, initialValue, dates, k) == Simulate(allocation, history, total, initialValue, dates, n)
    decreases k - n
  {
    if n < k {
      SimulateErrPersists(allocation, history, total, initialValue, dates, n + 1, k);
    }
  }

  /** The loop fails only on the first date, with a division by a zero price. */
  lemma {:induction false} SimulateFailure(allocation: Allocation, history: History, total: real, initialValue: real, dates: seq<int>, n: nat)
    requires 1 <= n <= |dates| && total != 0.0
    ensures Simulate(allocation, history, total, initialValue, dates, n).Err?
        <==> FirstDay(allocation, history, total, initialValue, dates[0], |allocation|).Err?
    ensures Simulate(allocation, history, total, initialValue, dates, n).Err?
        ==> Simulate(allocation, history, total, initialValue, dates, n).error == CalculationFailed
  {
    FirstDayFails(allocation, history, total, initialValue, dates[0], |allocation|);
    if n > 1 {
      SimulateFailure(allocation, history, total, initialValue, dates, n - 1);
    }
  }

  /** Share counts are fixed on the first date: every later date is valued with the
      counts bought then, and the first value is the one FirstDay gives. */
  lemma {:induction false} SharesFixedOnFirstDate(allocation: Allocation, history: History, total: real, initialValue: real, dates: seq<int>, n: nat)
    requires 1 <= n <= |dates| && total != 0.0
    requires Simulate(allocation, history, total, initialValue, dates, n).Ok?
    ensures FirstDay(allocation, history, total, initialValue, dates[0], |allocation|).Ok?
    ensures var first := FirstDay(allocation, history, total, initialValue, dates[0], |allocation|).value;
            var run := Simulate(allocation, history, total, initialValue, dates, n).value;
            && run.shares == first.shares
            && run.values[0] == first.value
            && forall k :: 1 <= k < n ==> run.values[k] == DayValue(allocation, history, first.shares, dates[k], |allocation|)
  {
    if n > 1 {
      SharesFixedOnFirstDate(allocation, history, total, initialValue, dates, n - 1);
    }
  }

  /** The return appended after a value, when the previous value is positive. */
  function ReturnStep(previous: real, value: real): seq<real>
  {
    if previous > 0.0 then [(value - previous) / previous] else []
  }

  /** `daily_returns` once the values so far have been appended. */
  function DailyReturns(values: seq<real>): seq<real>
  {
    if |values| < 2 then []
    else DailyReturns(values[..|values| - 1]) + ReturnStep(values[|values| - 2], values[|values| - 1])
  }

  /** Appending a value appends the return it completes, if any. */
  lemma ReturnsAppend(values: seq<real>, value: real)
    ensures DailyReturns(values + [value])
         == DailyReturns(values) + if values == [] then [] else ReturnStep(values[|values| - 1], value)
  {
    assert (values + [value])[..|values|] == values;
  }

  /** A return is recorded only after a positive value, so there are fewer returns
      than values. */
  lemma {:induction false} FewerReturnsThanValues(values: seq<real>)
    requires |values| > 0
    ensures |DailyReturns(values)| <= |values| - 1
  {
    if |values| >= 2 {
      FewerReturnsThanValues(values[..|values| - 1]);
    }
  }

  /** A value grown by a rate of return. */
  function Grown(value: real, rate: real): real
  {
    value * (1.0 + rate)
  }

  lemma Compounds(previous: real, value: real)
    requires previous > 0.0
    ensures Grown(previous, (value - previous) / previous) == value
  {
  }

  /** When every value is positive, there is one return per later value and
      compounding the returns rebuilds the value series. */
  lemma {:induction false} ReturnsRebuildValues(values: seq<real>)
    requires |values| > 0
    requires forall k :: 0 <= k < |values| ==> values[k] > 0.0
    ensures |DailyReturns(values)| == |values| - 1
    ensures forall k :: 0 <= k < |values| - 1 ==> values[k + 1] == Grown(values[k], DailyReturns(values)[k])
  {
    if |values| >= 2 {
      var n := |values|;
      var before := values[..n - 1];
      ReturnsRebuildValues(before);
      var r, rb := DailyReturns(values), DailyReturns(before);
      var last := (values[n - 1] - values[n - 2]) / values[n - 2];
      assert r == rb + [last];
      Compounds(values[n - 2], values[n - 1]);
      forall k | 0 <= k < n - 1
        ensures values[k + 1] == Grown(values[k], r[k])
      {
        if k < n - 2 {
          assert r[k] == rb[k] && before[k] == values[k] && before[k + 1] == values[k + 1];
        } else {
          assert r[k] == last;
        }
      }
    }
  }

  // ---------------------------------------------------------------------------
  // The whole calculation

  /** `(end_value - start_value) / start_value if start_value > 0 else 0` */
  function TotalReturn(startValue: real, endValue: real): (r: real)
    ensures startValue > 0.0 ==> startValue * (1.0 + r) == endValue
    ensures startValue <= 0.0 ==> r == 0.0
  {
    if startValue > 0.0 then (endValue - startValue) / startValue else 0.0
  }

  /** The metrics once the value series is known. */
  function Summarise(m: RealMath, dates: seq<int>, values: seq<real>): Result<Performance, BacktestError>
    requires |values| == |dates|
  {
    if |values| < 2 then Err(InsufficientData)
    else
      var startValue := values[0];
      var endValue := values[|values| - 1];
      var years := |dates| as real / TradingDaysPerYear;
      match MaxDrawdown(values)
      case Err(_) => Err(CalculationFailed)
      case Ok(drawdown) =>
        var dailyReturns := DailyReturns(values);
        Ok(Performance(
          Metrics(Cagr(m, startValue, endValue, years), TotalReturn(startValue, endValue), drawdown,
                  SharpeRatio(m, dailyReturns, DefaultRiskFreeRate), startValue, endValue, years, |dates|),
          values, dates, dailyReturns))
  }

  /** calculate_portfolio_performance, as a function of its inputs. */
  function PortfolioPerformance(m: RealMath, allocation: Allocation, history: History, initialValue: real)
    : (r: Result<Performance, BacktestError>)
    ensures r.Err? ==> r.error in {MissingData, InvalidAllocation, NoCommonDates, CalculationFailed, InsufficientData}
  {
    if allocation == [] || history == [] then Err(MissingData)
    else
      var total := SumValues(allocation);
      if total <= 0.0 then Err(InvalidAllocation)
      else
        var common := CommonDates(allocation, history, |history|);
        if common == {} then Err(NoCommonDates)
        else
          var dates := SortedDays(common);
          SimulateFailure(allocation, history, total, initialValue, dates, |dates|);
          match Simulate(allocation, history, total, initialValue, dates, |dates|)
          case Err(e) => Err(e)
          case Ok(run) => Summarise(m, dates, run.values)
  }

  /** The failures come in the source's order: missing data, then a non-positive
      total, then no common dates, then a single date. */
  lemma PerformanceErrors(m: RealMath, allocation: Allocation, history: History, initialValue: real)
    ensures PortfolioPerformance(m, allocation, history, initialValue) == Err(MissingData)
        <==> allocation == [] || history == []
    ensures PortfolioPerformance(m, allocation, history, initialValue) == Err(InvalidAllocation)
        <==> allocation != [] && history != [] && SumValues(allocation) <= 0.0
    ensures PortfolioPerformance(m, allocation, history, initialValue) == Err(NoCommonDates)
        <==> allocation != [] && history != [] && SumValues(allocation) > 0.0
             && CommonDates(allocation, history, |history|) == {}
    ensures allocation != [] && history != [] && SumValues(allocation) > 0.0
            && |CommonDates(allocation, history, |history|)| == 1
            ==> PortfolioPerformance(m, allocation, history, initialValue) in {Err(CalculationFailed), Err(InsufficientData)}
  {
    if allocation != [] && history != [] && SumValues(allocation) > 0.0 {
      var common := CommonDates(allocation, history, |history|);
      if common != {} {
        var dates := SortedDays(common);
        SimulateFailure(allocation, history, SumValues(allocation), initialValue, dates, |dates|);
      }
    }
  }

  /** A successful calculation covers the sorted common dates, at least two of them,
      with one value per date; the start value is the initial value times the
      allocation fraction priced on the first date; `years` is trading days over 252
      and the drawdown is never negative. */
  lemma PerformanceShape(m: RealMath, allocation: Allocation, history: History, initialValue: real)
    requires PortfolioPerformance(m, allocation, history, initialValue).Ok?
    ensures var p := PortfolioPerformance(m, allocation, history, initialValue).value;
      && SumValues(allocation) > 0.0
      && |p.dates| >= 2
      && (forall i, j :: 0 <= i < j < |p.dates| ==> p.dates[i] < p.dates[j])
      && (forall d :: d in p.dates <==> d in CommonDates(allocation, history, |history|))
      && |p.portfolioValues| == |p.dates|
      && p.metrics.tradingDays == |p.dates|
      && p.metrics.years * TradingDaysPerYear == |p.dates| as real
      && p.metrics.startValue == p.portfolioValues[0]
      && p.metrics.endValue == p.portfolioValues[|p.dates| - 1]
      && p.metrics.startValue
           == PartOfInitial(PricedTotal(allocation, history, p.dates[0], |allocation|), SumValues(allocation), initialValue)
      && p.metrics.maxDrawdown >= 0.0
      && p.dailyReturns == DailyReturns(p.portfolioValues)
  {
    var total := SumValues(allocation);
    var dates := SortedDays(CommonDates(allocation, history, |history|));
    var run := Simulate(allocation, history, total, initialValue, dates, |dates|).value;
    var p := PortfolioPerformance(m, allocation, history, initialValue).value;
    assert p == Summarise(m, dates, run.values).value;
    SharesFixedOnFirstDate(allocation, history, total, initialValue, dates, |dates|);
    FirstDayValue(allocation, history, total, initialValue, dates[0], |allocation|);
    MaxDrawdownIsLargestDrawdown(run.values);
  }
}
