/** The incremental allocation engine: given target fractions, new cash, current
    holdings (dollar values) and prices, recommend whole shares to buy so that the
    portfolio moves toward its target mix. */
module Allocation {
  import opened Basics
  import opened Dicts

  /** `sum(current_allocation.values()) + investment_amount`: every holding counts,
      including holdings of symbols outside the target. */
  function FutureTotal(current: Dict<real>, investment: real): real
  {
    SumValues(current) + investment
  }

  /** The guards that do not return `{}` straight away. */
  predicate Active(target: Dict<real>, investment: real, current: Dict<real>)
  {
    |target| > 0 && investment > 0.0 && FutureTotal(current, investment) > 0.0
  }

  /** Target fraction of the i-th target symbol minus its share of the future total. */
  function GapOf(target: Dict<real>, investment: real, current: Dict<real>, i: nat): real
    requires Active(target, investment, current) && i < |target|
  {
    target[i].1 - GetOr(current, target[i].0, 0.0) / FutureTotal(current, investment)
  }

  /** `symbol` is a target symbol whose gap is strictly positive. */
  predicate UnderTarget(target: Dict<real>, investment: real, current: Dict<real>, symbol: string)
    requires Active(target, investment, current)
  {
    exists i :: 0 <= i < |target| && target[i].0 == symbol && GapOf(target, investment, current, i) > 0.0
  }

  /** `current_allocation_pct`, filled symbol by symbol in target order. */
  function CurrentPcts(target: Dict<real>, current: Dict<real>, future: real): (r: Dict<real>)
    requires future > 0.0
    ensures |r| == |target|
    ensures forall i :: 0 <= i < |r| ==> r[i] == (target[i].0, GetOr(current, target[i].0, 0.0) / future)
  {
    if target == [] then []
    else
      var n := |target| - 1;
      CurrentPcts(target[..n], current, future) + [(target[n].0, GetOr(current, target[n].0, 0.0) / future)]
  }

  /** `allocation_gaps`: target fraction minus the fraction found in `pcts`. */
  function Gaps(target: Dict<real>, pcts: Dict<real>): (r: Dict<real>)
    ensures |r| == |target|
    ensures forall i :: 0 <= i < |r| ==> r[i] == (target[i].0, target[i].1 - GetOr(pcts, target[i].0, 0.0))
  {
    if target == [] then []
    else
      var n := |target| - 1;
      Gaps(target[..n], pcts) + [(target[n].0, target[n].1 - GetOr(pcts, target[n].0, 0.0))]
  }

  /** `under_allocated`: the entries with a strictly positive gap, in order. */
  function UnderAllocated(gaps: Dict<real>): (r: Dict<real>)
    ensures forall p :: p in r <==> p in gaps && p.1 > 0.0
    ensures DistinctKeys(gaps) ==> DistinctKeys(r)
    ensures r != [] ==> SumValues(r) > 0.0
  {
    if gaps == [] then []
    else
      var rest := UnderAllocated(gaps[1..]);
      if gaps[0].1 > 0.0 then
        var r := [gaps[0]] + rest;
        assert r[1..] == rest;
        if DistinctKeys(gaps) then
          KeptDistinct(gaps, rest);
          r
        else r
      else rest
  }

  /** Keeping the head of a dict and some of its other entries keeps the keys distinct. */
  lemma KeptDistinct(gaps: Dict<real>, rest: Dict<real>)
    requires gaps != [] && DistinctKeys(gaps) && DistinctKeys(rest)
    requires forall p :: p in rest ==> p in gaps[1..]
    ensures DistinctKeys([gaps[0]] + rest)
  {
    var r := [gaps[0]] + rest;
    forall i, j | 0 <= i < j < |r| ensures r[i].0 != r[j].0 {
      if i == 0 {
        assert r[j] in gaps[1..];
        var k :| 0 <= k < |gaps[1..]| && gaps[1..][k] == r[j];
        assert gaps[k + 1] == r[j];
      } else {
        assert r[i] == rest[i - 1] && r[j] == rest[j - 1];
      }
    }
  }

  /** Dollars for one under-allocated symbol: its share of the total gap times the cash. */
  function DollarAmount(gap: real, totalGap: real, investment: real): real
    requires totalGap > 0.0
  {
    (gap / totalGap) * investment
  }

  /** `math.floor(amount / price)` when a positive price is known, else 0. */
  function SharesFor(amount: real, prices: Dict<real>, symbol: string): (n: int)
    ensures amount >= 0.0 ==> n >= 0
    ensures n > 0 ==> Has(prices, symbol) && GetOr(prices, symbol, 0.0) > 0.0
    ensures amount >= 0.0 ==> (n as real) * GetOr(prices, symbol, 0.0) <= amount
  {
    if Has(prices, symbol) && GetOr(prices, symbol, 0.0) > 0.0 then
      var price := GetOr(prices, symbol, 0.0);
      var n := (amount / price).Floor;
      assert (n as real) <= amount / price;
      assert (n as real) * price <= (amount / price) * price;
      n
    else
      assert (0 as real) * GetOr(prices, symbol, 0.0) == 0.0;
      0
  }

  lemma SharesForIs(amount: real, prices: Dict<real>, symbol: string, shares: int)
    requires shares == if Has(prices, symbol) && GetOr(prices, symbol, 0.0) > 0.0
                       then (amount / GetOr(prices, symbol, 0.0)).Floor else 0
    ensures shares == SharesFor(amount, prices, symbol)
  {
  }

  /** The dollar amounts before flooring, one per under-allocated symbol. */
  function Amounts(under: Dict<real>, totalGap: real, investment: real): (r: Dict<real>)
    requires totalGap > 0.0
    ensures |r| == |under|
    ensures forall i :: 0 <= i < |r| ==> r[i] == (under[i].0, DollarAmount(under[i].1, totalGap, investment))
  {
    if under == [] then []
    else
      var n := |under| - 1;
      Amounts(under[..n], totalGap, investment) + [(under[n].0, DollarAmount(under[n].1, totalGap, investment))]
  }

  /** `shares_to_buy`, filled symbol by symbol in the order of `under`. */
  function SharesToBuy(under: Dict<real>, totalGap: real, investment: real, prices: Dict<real>): (r: Dict<int>)
    requires totalGap > 0.0
    ensures |r| == |under|
    ensures forall i :: 0 <= i < |r| ==>
      r[i] == (under[i].0, SharesFor(DollarAmount(under[i].1, totalGap, investment), prices, under[i].0))
  {
    if under == [] then []
    else
      var n := |under| - 1;
      SharesToBuy(under[..n], totalGap, investment, prices)
        + [(under[n].0, SharesFor(DollarAmount(under[n].1, totalGap, investment), prices, under[n].0))]
  }

  /** `under_allocated` computed from the inputs. */
  function UnderFor(target: Dict<real>, investment: real, current: Dict<real>): Dict<real>
    requires Active(target, investment, current)
  {
    UnderAllocated(Gaps(target, CurrentPcts(target, current, FutureTotal(current, investment))))
  }

  /** calculate_investment_allocation, as a function of its four inputs. */
  function Allocate(target: Dict<real>, investment: real, current: Dict<real>, prices: Dict<real>): (r: Dict<int>)
    requires DistinctKeys(target)
    ensures !Active(target, investment, current) ==> r == []
  {
    if |target| == 0 || investment <= 0.0 then []
    else
      var future := FutureTotal(current, investment);
      if future <= 0.0 then []
      else
        var under := UnderFor(target, investment, current);
        if under == [] then []
        else
          var totalGap := SumValues(under);
          if totalGap <= 0.0 then []
          else SharesToBuy(under, totalGap, investment, prices)
  }

  /** The recommendation is a dict whose symbols are exactly the target symbols
      with a strictly positive gap (over-allocated and balanced symbols never
      appear, and nothing outside the target does). */
  lemma AllocateKeys(target: Dict<real>, investment: real, current: Dict<real>, prices: Dict<real>)
    requires DistinctKeys(target)
    ensures DistinctKeys(Allocate(target, investment, current, prices))
    ensures forall k :: Has(Allocate(target, investment, current, prices), k) <==>
      Active(target, investment, current) && UnderTarget(target, investment, current, k)
  {
    var r := Allocate(target, investment, current, prices);
    if Active(target, investment, current) {
      var under := UnderFor(target, investment, current);
      UnderAllocatedKeys(target, investment, current);
      if under != [] {
        SharesToBuyKeys(under, SumValues(under), investment, prices);
      }
      forall k ensures Has(r, k) <==> UnderTarget(target, investment, current, k) {
        if UnderTarget(target, investment, current, k) {
          var i :| 0 <= i < |target| && target[i].0 == k && GapOf(target, investment, current, i) > 0.0;
        }
      }
    }
  }

  /** Share counts are never negative, and a symbol without a known positive price
      gets 0 shares. */
  lemma AllocateShares(target: Dict<real>, investment: real, current: Dict<real>, prices: Dict<real>)
    requires DistinctKeys(target)
    ensures forall j :: 0 <= j < |Allocate(target, investment, current, prices)| ==>
      Allocate(target, investment, current, prices)[j].1 >= 0
    ensures forall j :: 0 <= j < |Allocate(target, investment, current, prices)| ==>
      var (symbol, n) := Allocate(target, investment, current, prices)[j];
      !Has(prices, symbol) || GetOr(prices, symbol, 0.0) <= 0.0 ==> n == 0
  {
    if Active(target, investment, current) {
      var under := UnderFor(target, investment, current);
      UnderAllocatedKeys(target, investment, current);
      if under != [] {
        SharesToBuyKeys(under, SumValues(under), investment, prices);
      }
    }
  }

  /** The gap list holds, position by position, the target symbol and its GapOf. */
  lemma GapsAreGapOf(target: Dict<real>, investment: real, current: Dict<real>)
    requires Active(target, investment, current) && DistinctKeys(target)
    ensures var gaps := Gaps(target, CurrentPcts(target, current, FutureTotal(current, investment)));
      DistinctKeys(gaps) &&
      forall i :: 0 <= i < |target| ==> gaps[i] == (target[i].0, GapOf(target, investment, current, i))
  {
    var pcts := CurrentPcts(target, current, FutureTotal(current, investment));
    GapsDistinct(target, pcts);
    forall i | 0 <= i < |target|
      ensures Gaps(target, pcts)[i] == (target[i].0, GapOf(target, investment, current, i))
    {
      GapAt(target, investment, current, i);
    }
  }

  lemma GapAt(target: Dict<real>, investment: real, current: Dict<real>, i: nat)
    requires Active(target, investment, current) && DistinctKeys(target) && i < |target|
    ensures Gaps(target, CurrentPcts(target, current, FutureTotal(current, investment)))[i]
      == (target[i].0, GapOf(target, investment, current, i))
  {
    var f := FutureTotal(current, investment);
    var pcts := CurrentPcts(target, current, f);
    PctsDistinct(target, current, f);
    GetAt(pcts, i);
    assert pcts[i] == (target[i].0, GetOr(current, target[i].0, 0.0) / f);
    assert GetOr(pcts, target[i].0, 0.0) == GetOr(current, target[i].0, 0.0) / f;
    assert GapOf(target, investment, current, i) == target[i].1 - GetOr(pcts, target[i].0, 0.0);
    assert Gaps(target, pcts)[i] == (target[i].0, target[i].1 - GetOr(pcts, target[i].0, 0.0));
  }

  lemma PctsDistinct(target: Dict<real>, current: Dict<real>, future: real)
    requires DistinctKeys(target) && future > 0.0
    ensures DistinctKeys(CurrentPcts(target, current, future))
  {
    var pcts := CurrentPcts(target, current, future);
    forall i, j | 0 <= i < j < |pcts| ensures pcts[i].0 != pcts[j].0 {
      assert pcts[i].0 == target[i].0 && pcts[j].0 == target[j].0;
    }
  }

  lemma GapsDistinct(target: Dict<real>, pcts: Dict<real>)
    requires DistinctKeys(target)
    ensures DistinctKeys(Gaps(target, pcts))
  {
    var gaps := Gaps(target, pcts);
    forall i, j | 0 <= i < j < |gaps| ensures gaps[i].0 != gaps[j].0 {
      assert gaps[i].0 == target[i].0 && gaps[j].0 == target[j].0;
    }
  }

  /** The under-allocated list is a dict whose keys are exactly the target symbols
      with a positive gap. */
  lemma UnderAllocatedKeys(target: Dict<real>, investment: real, current: Dict<real>)
    requires Active(target, investment, current) && DistinctKeys(target)
    ensures var under := UnderAllocated(Gaps(target, CurrentPcts(target, current, FutureTotal(current, investment))));
      && DistinctKeys(under)
      && (forall j :: 0 <= j < |under| ==>
            under[j].1 > 0.0 && UnderTarget(target, investment, current, under[j].0))
      && (forall i :: 0 <= i < |target| && GapOf(target, investment, current, i) > 0.0 ==>
            exists j :: 0 <= j < |under| && under[j].0 == target[i].0)
  {
    var gaps := Gaps(target, CurrentPcts(target, current, FutureTotal(current, investment)));
    var under := UnderAllocated(gaps);
    GapsAreGapOf(target, investment, current);
    forall j | 0 <= j < |under|
      ensures under[j].1 > 0.0 && UnderTarget(target, investment, current, under[j].0)
    {
      assert under[j] in under;
      var i :| 0 <= i < |gaps| && gaps[i] == under[j];
      assert target[i].0 == under[j].0 && GapOf(target, investment, current, i) == under[j].1;
    }
    forall i | 0 <= i < |target| && GapOf(target, investment, current, i) > 0.0
      ensures exists j :: 0 <= j < |under| && under[j].0 == target[i].0
    {
      assert gaps[i] in under;
      var j :| 0 <= j < |under| && under[j] == gaps[i];
    }
  }

  /** Flooring keeps the keys of `under`, never goes negative, and gives 0 to a
      symbol without a positive price. */
  lemma SharesToBuyKeys(under: Dict<real>, totalGap: real, investment: real, prices: Dict<real>)
    requires totalGap > 0.0 && investment > 0.0 && DistinctKeys(under)
    requires forall j :: 0 <= j < |under| ==> under[j].1 > 0.0
    ensures var r := SharesToBuy(under, totalGap, investment, prices);
      && DistinctKeys(r)
      && (forall j :: 0 <= j < |r| ==> r[j].0 == under[j].0 && r[j].1 >= 0)
      && (forall k :: Has(r, k) <==> exists j :: 0 <= j < |under| && under[j].0 == k)
      && (forall j :: 0 <= j < |r| && (!Has(prices, r[j].0) || GetOr(prices, r[j].0, 0.0) <= 0.0) ==> r[j].1 == 0)
  {
    var r := SharesToBuy(under, totalGap, investment, prices);
    forall j | 0 <= j < |r| ensures r[j].0 == under[j].0 && r[j].1 >= 0 {
      assert DollarAmount(under[j].1, totalGap, investment) >= 0.0;
    }
    forall k ensures Has(r, k) <==> exists j :: 0 <= j < |under| && under[j].0 == k {
      GetSome(r, k);
    }
  }

  /** A key of `target[..i]` in a dict built from it is not the key at position i. */
  lemma FreshKey<V, W>(target: Dict<V>, i: nat, built: Dict<W>)
    requires DistinctKeys(target) && i < |target| && |built| == i
    requires forall m :: 0 <= m < i ==> built[m].0 == target[m].0
    ensures !Has(built, target[i].0)
  {
    GetSome(built, target[i].0);
  }

  /** The first loop of calculate_investment_allocation: each target symbol's
      current holding as a fraction of the future total. */
  method PercentLoop(target: Dict<real>, current: Dict<real>, future: real) returns (pcts: Dict<real>)
    requires DistinctKeys(target) && future > 0.0
    ensures pcts == CurrentPcts(target, current, future)
  {
    pcts := [];
    for i := 0 to |target|
      invariant pcts == CurrentPcts(target[..i], current, future)
    {
      var security := target[i].0;
      var currentValue := GetOr(current, security, 0.0);
      assert target[..i + 1][..i] == target[..i];
      assert CurrentPcts(target[..i + 1], current, future) == pcts + [(security, currentValue / future)];
      FreshKey(target, i, pcts);
      PutFresh(pcts, security, currentValue / future);
      pcts := Put(pcts, security, currentValue / future);
    }
    assert target[..|target|] == target;
  }

  /** The second loop: target fraction minus current fraction, per target symbol. */
  method GapLoop(target: Dict<real>, pcts: Dict<real>) returns (gaps: Dict<real>)
    requires DistinctKeys(target)
    ensures gaps == Gaps(target, pcts)
  {
    gaps := [];
    for i := 0 to |target|
      invariant gaps == Gaps(target[..i], pcts)
    {
      var (security, targetPercent) := target[i];
      var gap := targetPercent - GetOr(pcts, security, 0.0);
      assert target[..i + 1][..i] == target[..i];
      assert Gaps(target[..i + 1], pcts) == gaps + [(security, gap)];
      FreshKey(target, i, gaps);
      PutFresh(gaps, security, gap);
      gaps := Put(gaps, security, gap);
    }
    assert target[..|target|] == target;
  }

  /** The third loop: split the cash in proportion to the gaps and floor each
      dollar amount to whole shares at the known price. */
  method ShareLoop(under: Dict<real>, totalGap: real, investment: real, prices: Dict<real>)
    returns (sharesToBuy: Dict<int>)
    requires DistinctKeys(under) && totalGap > 0.0
    ensures sharesToBuy == SharesToBuy(under, totalGap, investment, prices)
  {
    sharesToBuy := [];
    for i := 0 to |under|
      invariant sharesToBuy == SharesToBuy(under[..i], totalGap, investment, prices)
    {
      var (security, gap) := under[i];
      var amount := (gap / totalGap) * investment;
      assert amount == DollarAmount(gap, totalGap, investment);
      var shares;
      if Has(prices, security) && GetOr(prices, security, 0.0) > 0.0 {
        shares := (amount / GetOr(prices, security, 0.0)).Floor;
      } else {
        shares := 0;
      }
      SharesForIs(amount, prices, security, shares);
      assert under[..i + 1][..i] == under[..i];
      assert SharesToBuy(under[..i + 1], totalGap, investment, prices) == sharesToBuy + [(security, shares)];
      FreshKey(under, i, sharesToBuy);
      PutFresh(sharesToBuy, security, shares);
      sharesToBuy := Put(sharesToBuy, security, shares);
    }
    assert under[..|under|] == under;
  }

  /** calculate_investment_allocation (portfolio/allocation.py): the guards, then the
      three loops that fill the percentage, gap and share dicts. */
  method CalculateInvestmentAllocation(target: Dict<real>, investment: real, current: Dict<real>,
                                       prices: Dict<real>) returns (sharesToBuy: Dict<int>)
    requires DistinctKeys(target)
    ensures sharesToBuy == Allocate(target, investment, current, prices)
  {
    if |target| == 0 || investment <= 0.0 {
      return [];
    }
    var totalCurrent := if current != [] then SumValues(current) else 0.0;
    var future := totalCurrent + investment;
    assert future == FutureTotal(current, investment);
    if future <= 0.0 {
      return [];
    }
    var pcts := PercentLoop(target, current, future);
    var gaps := GapLoop(target, pcts);
    var under := UnderAllocated(gaps);
    if under == [] {
      return [];
    }
    var totalGap := SumValues(under);
    if totalGap <= 0.0 {
      return [];
    }
    GapsDistinct(target, pcts);
    sharesToBuy := ShareLoop(under, totalGap, investment, prices);
  }

  /** Real-arithmetic facts kept out of the larger proofs. */
  lemma SplitSum(a: real, b: real, t: real, investment: real)
    requires t > 0.0
    ensures DollarAmount(a, t, investment) + DollarAmount(b, t, investment) == DollarAmount(a + b, t, investment)
  {
  }

  lemma WholeShare(t: real, investment: real)
    requires t > 0.0
    ensures DollarAmount(t, t, investment) == investment
  {
  }

  lemma NonNegativeAmount(gap: real, totalGap: real, investment: real)
    requires gap >= 0.0 && totalGap > 0.0 && investment >= 0.0
    ensures DollarAmount(gap, totalGap, investment) >= 0.0
  {
  }

  lemma DivideByOne(gap: real, investment: real)
    ensures DollarAmount(gap, 1.0, investment) == gap * investment
  {
  }

  lemma LargerDenominator(held: real, f: real, v: real)
    requires held >= 0.0 && f > 0.0 && v > 0.0
    ensures held / (f + v) <= held / f
    ensures held > 0.0 ==> held / (f + v) < held / f
  {
    assert held / (f + v) * (f + v) == held;
    assert held / f * f == held;
  }

  /** What the recommended shares cost at the given prices. */
  function Cost(shares: Dict<int>, prices: Dict<real>): real
  {
    if shares == [] then 0.0
    else
      var n := |shares| - 1;
      Cost(shares[..n], prices) + (shares[n].1 as real) * GetOr(prices, shares[n].0, 0.0)
  }

  lemma {:induction false} AmountsSum(under: Dict<real>, totalGap: real, investment: real)
    requires totalGap > 0.0
    ensures SumValues(Amounts(under, totalGap, investment)) == DollarAmount(SumValues(under), totalGap, investment)
  {
    if under != [] {
      var n := |under| - 1;
      var amount := DollarAmount(under[n].1, totalGap, investment);
      AmountsSum(under[..n], totalGap, investment);
      assert Amounts(under, totalGap, investment) == Amounts(under[..n], totalGap, investment) + [(under[n].0, amount)];
      SumValuesAppend(Amounts(under[..n], totalGap, investment), under[n].0, amount);
      assert under == under[..n] + [(under[n].0, under[n].1)];
      SumValuesAppend(under[..n], under[n].0, under[n].1);
      SplitSum(SumValues(under[..n]), under[n].1, totalGap, investment);
    }
  }

  /** The dollar amounts before flooring, one per under-allocated symbol, add up to
      the new cash exactly. */
  lemma AmountsExhaustInvestment(target: Dict<real>, investment: real, current: Dict<real>)
    requires Active(target, investment, current)
    requires UnderFor(target, investment, current) != []
    ensures var under := UnderFor(target, investment, current);
      SumValues(Amounts(under, SumValues(under), investment)) == investment
  {
    var under := UnderFor(target, investment, current);
    AmountsSum(under, SumValues(under), investment);
    WholeShare(SumValues(under), investment);
  }

  /** Entry by entry within budget means within budget in total. */
  lemma {:induction false} CostBound(shares: Dict<int>, amounts: Dict<real>, prices: Dict<real>)
    requires |shares| == |amounts|
    requires forall j :: 0 <= j < |shares| ==> (shares[j].1 as real) * GetOr(prices, shares[j].0, 0.0) <= amounts[j].1
    ensures Cost(shares, prices) <= SumValues(amounts)
  {
    if shares != [] {
      var n := |shares| - 1;
      CostBound(shares[..n], amounts[..n], prices);
      assert amounts == amounts[..n] + [(amounts[n].0, amounts[n].1)];
      SumValuesAppend(amounts[..n], amounts[n].0, amounts[n].1);
    }
  }

  lemma CostWithinAmounts(under: Dict<real>, totalGap: real, investment: real, prices: Dict<real>)
    requires totalGap > 0.0 && investment > 0.0
    requires forall j :: 0 <= j < |under| ==> under[j].1 > 0.0
    ensures Cost(SharesToBuy(under, totalGap, investment, prices), prices)
         <= SumValues(Amounts(under, totalGap, investment))
  {
    var r := SharesToBuy(under, totalGap, investment, prices);
    var amounts := Amounts(under, totalGap, investment);
    forall j | 0 <= j < |r|
      ensures (r[j].1 as real) * GetOr(prices, r[j].0, 0.0) <= amounts[j].1
    {
      NonNegativeAmount(under[j].1, totalGap, investment);
    }
    CostBound(r, amounts, prices);
  }

  /** Flooring never overspends: the recommended shares cost at most the new cash
      (nothing at all when the guards return an empty recommendation). */
  lemma NoOverspend(target: Dict<real>, investment: real, current: Dict<real>, prices: Dict<real>)
    requires DistinctKeys(target)
    ensures Cost(Allocate(target, investment, current, prices), prices)
         <= if investment > 0.0 then investment else 0.0
  {
    if Active(target, investment, current) {
      var under := UnderFor(target, investment, current);
      if under != [] {
        var totalGap := SumValues(under);
        UnderAllocatedKeys(target, investment, current);
        CostWithinAmounts(under, totalGap, investment, prices);
        AmountsExhaustInvestment(target, investment, current);
        var cost := Cost(SharesToBuy(under, totalGap, investment, prices), prices);
        assert Allocate(target, investment, current, prices) == SharesToBuy(under, totalGap, investment, prices);
        assert cost <= SumValues(Amounts(under, totalGap, investment));
        assert SumValues(Amounts(under, totalGap, investment)) == investment;
      }
    }
  }

  /** A holding of a symbol outside the target still counts toward the future
      total, so it can only widen the gap of every target symbol (strictly, for a
      symbol already held). */
  lemma OutsideHoldingWidensGaps(target: Dict<real>, investment: real, current: Dict<real>,
                                 symbol: string, value: real, i: nat)
    requires Active(target, investment, current) && i < |target|
    requires !Has(current, symbol) && !Has(target, symbol) && value > 0.0
    requires GetOr(current, target[i].0, 0.0) >= 0.0
    ensures Active(target, investment, Put(current, symbol, value))
    ensures GapOf(target, investment, Put(current, symbol, value), i) >= GapOf(target, investment, current, i)
    ensures GetOr(current, target[i].0, 0.0) > 0.0 ==>
      GapOf(target, investment, Put(current, symbol, value), i) > GapOf(target, investment, current, i)
  {
    var wider := Put(current, symbol, value);
    var held := GetOr(current, target[i].0, 0.0);
    var f := FutureTotal(current, investment);
    WiderHolding(target, investment, current, symbol, value, i);
    SmallerFraction(target[i].1, held, f, value);
    assert GapOf(target, investment, current, i) == target[i].1 - held / f;
    assert GapOf(target, investment, wider, i) == target[i].1 - held / (f + value);
  }

  lemma WiderHolding(target: Dict<real>, investment: real, current: Dict<real>,
                     symbol: string, value: real, i: nat)
    requires i < |target| && !Has(current, symbol) && !Has(target, symbol)
    ensures FutureTotal(Put(current, symbol, value), investment) == FutureTotal(current, investment) + value
    ensures GetOr(Put(current, symbol, value), target[i].0, 0.0) == GetOr(current, target[i].0, 0.0)
  {
    PutFresh(current, symbol, value);
    SumValuesAppend(current, symbol, value);
    GetSome(target, target[i].0);
    assert target[i].0 != symbol;
  }

  lemma SmallerFraction(g: real, held: real, f: real, v: real)
    requires held >= 0.0 && f > 0.0 && v > 0.0
    ensures g - held / (f + v) >= g - held / f
    ensures held > 0.0 ==> g - held / (f + v) > g - held / f
  {
    LargerDenominator(held, f, v);
  }

  /** Changing the price of one symbol changes at most that symbol's share count. */
  lemma OtherPricesIrrelevant(target: Dict<real>, investment: real, current: Dict<real>,
                              prices: Dict<real>, symbol: string, price: real)
    requires DistinctKeys(target)
    ensures var r := Allocate(target, investment, current, prices);
      var r' := Allocate(target, investment, current, Put(prices, symbol, price));
      |r'| == |r| && forall j :: 0 <= j < |r| ==> r'[j].0 == r[j].0 && (r[j].0 != symbol ==> r'[j].1 == r[j].1)
  {
  }

  lemma {:induction false} UnderAllocatedAllPositive(gaps: Dict<real>)
    requires forall j :: 0 <= j < |gaps| ==> gaps[j].1 > 0.0
    ensures UnderAllocated(gaps) == gaps
  {
    if gaps != [] {
      UnderAllocatedAllPositive(gaps[1..]);
    }
  }

  lemma WholeGapShares(under: Dict<real>, investment: real, prices: Dict<real>, i: nat)
    requires i < |under|
    ensures SharesToBuy(under, 1.0, investment, prices)[i]
         == (under[i].0, SharesFor(under[i].1 * investment, prices, under[i].0))
  {
    var r := SharesToBuy(under, 1.0, investment, prices);
    assert r[i] == (under[i].0, SharesFor(DollarAmount(under[i].1, 1.0, investment), prices, under[i].0));
    DivideByOne(under[i].1, investment);
    assert DollarAmount(under[i].1, 1.0, investment) == under[i].1 * investment;
    assert SharesFor(DollarAmount(under[i].1, 1.0, investment), prices, under[i].0) == SharesFor(under[i].1 * investment, prices, under[i].0);
  }

  lemma EmptyPortfolioGaps(target: Dict<real>, investment: real)
    requires DistinctKeys(target) && |target| > 0 && investment > 0.0
    requires forall i :: 0 <= i < |target| ==> target[i].1 > 0.0
    ensures Active(target, investment, [])
    ensures UnderFor(target, investment, []) == target
  {
    assert FutureTotal([], investment) == investment;
    var pcts := CurrentPcts(target, [], investment);
    var gaps := Gaps(target, pcts);
    forall i | 0 <= i < |target| ensures gaps[i] == target[i] {
      GetAt(pcts, i);
      assert pcts[i].0 == target[i].0;
    }
    assert gaps == target;
    UnderAllocatedAllPositive(target);
  }

  /** From an empty portfolio with positive targets summing to 1, each symbol gets
      `floor(target * investment / price)` shares, in target order. */
  lemma EmptyPortfolio(target: Dict<real>, investment: real, prices: Dict<real>)
    requires DistinctKeys(target) && |target| > 0 && investment > 0.0
    requires forall i :: 0 <= i < |target| ==> target[i].1 > 0.0
    requires SumValues(target) == 1.0
    ensures var r := Allocate(target, investment, [], prices);
      |r| == |target| &&
      forall i :: 0 <= i < |target| ==>
        r[i] == (target[i].0, SharesFor(target[i].1 * investment, prices, target[i].0))
  {
    EmptyPortfolioGaps(target, investment);
    var r := Allocate(target, investment, [], prices);
    assert r == SharesToBuy(target, 1.0, investment, prices);
    forall i | 0 <= i < |target|
      ensures r[i] == (target[i].0, SharesFor(target[i].1 * investment, prices, target[i].0))
    {
      WholeGapShares(target, investment, prices, i);
    }
  }

  /** 50/30/20 from nothing with $1000 at prices 100/200/50 buys 5, 1 and 4 shares. */
  lemma ProportionalExample(target: Dict<real>, prices: Dict<real>)
    requires target == [("AAPL", 0.5), ("GOOGL", 0.3), ("MSFT", 0.2)]
    requires prices == [("AAPL", 100.0), ("GOOGL", 200.0), ("MSFT", 50.0)]
    ensures Allocate(target, 1000.0, [], prices) == [("AAPL", 5), ("GOOGL", 1), ("MSFT", 4)]
  {
    ProportionalTargets(target);
    EmptyPortfolioGaps(target, 1000.0);
    AllocateFromUnder(target, 1000.0, [], prices);
    ProportionalShares(target, prices);
  }

  /** Past the guards, the recommendation floors the split of the under-allocated list. */
  lemma AllocateFromUnder(target: Dict<real>, investment: real, current: Dict<real>, prices: Dict<real>)
    requires DistinctKeys(target) && Active(target, investment, current)
    requires UnderFor(target, investment, current) != []
    ensures var under := UnderFor(target, investment, current);
      SumValues(under) > 0.0 &&
      Allocate(target, investment, current, prices) == SharesToBuy(under, SumValues(under), investment, prices)
  {
  }

  lemma ProportionalTargets(target: Dict<real>)
    requires target == [("AAPL", 0.5), ("GOOGL", 0.3), ("MSFT", 0.2)]
    ensures DistinctKeys(target) && SumValues(target) == 1.0
    ensures forall i :: 0 <= i < |target| ==> target[i].1 > 0.0
  {
    assert "AAPL"[0] != "GOOGL"[0] && "AAPL"[0] != "MSFT"[0] && "GOOGL"[0] != "MSFT"[0];
    assert target[1..] == [("GOOGL", 0.3), ("MSFT", 0.2)] && target[1..][1..] == [("MSFT", 0.2)];
    assert target[1..][1..][1..] == [];
    assert SumValues(target[1..][1..]) == 0.2;
    assert SumValues(target[1..]) == 0.5;
  }

  lemma ProportionalShares(target: Dict<real>, prices: Dict<real>)
    requires target == [("AAPL", 0.5), ("GOOGL", 0.3), ("MSFT", 0.2)]
    requires prices == [("AAPL", 100.0), ("GOOGL", 200.0), ("MSFT", 50.0)]
    ensures SumValues(target) == 1.0
    ensures SharesToBuy(target, 1.0, 1000.0, prices) == [("AAPL", 5), ("GOOGL", 1), ("MSFT", 4)]
  {
    ProportionalTargets(target);
    assert "AAPL"[0] != "GOOGL"[0] && "AAPL"[0] != "MSFT"[0] && "GOOGL"[0] != "MSFT"[0];
    assert prices[1..] == [("GOOGL", 200.0), ("MSFT", 50.0)] && prices[1..][1..] == [("MSFT", 50.0)];
    assert Get(prices, "AAPL") == Some(100.0);
    assert Get(prices, "GOOGL") == Some(200.0);
    assert Get(prices[1..][1..], "MSFT") == Some(50.0);
    assert Get(prices, "MSFT") == Some(50.0);
    assert SharesFor(500.0, prices, "AAPL") == 5;
    assert SharesFor(300.0, prices, "GOOGL") == 1;
    assert SharesFor(200.0, prices, "MSFT") == 4;
    assert DollarAmount(0.5, 1.0, 1000.0) == 500.0;
    assert DollarAmount(0.3, 1.0, 1000.0) == 300.0;
    assert DollarAmount(0.2, 1.0, 1000.0) == 200.0;
  }

  /** Every target symbol below target: the under-allocated list is the whole gap list. */
  lemma AllUnderTarget(target: Dict<real>, investment: real, current: Dict<real>)
    requires Active(target, investment, current) && DistinctKeys(target)
    requires forall i :: 0 <= i < |target| ==> GapOf(target, investment, current, i) > 0.0
    ensures var under := UnderFor(target, investment, current);
      |under| == |target| &&
      forall i :: 0 <= i < |target| ==> under[i] == (target[i].0, GapOf(target, investment, current, i))
  {
    GapsAreGapOf(target, investment, current);
    UnderAllocatedAllPositive(Gaps(target, CurrentPcts(target, current, FutureTotal(current, investment))));
  }

  lemma BalancedGaps(target: Dict<real>, current: Dict<real>)
    requires target == [("AAPL", 0.6), ("GOOGL", 0.4)]
    requires current == [("AAPL", 600.0), ("GOOGL", 400.0)]
    ensures Active(target, 1000.0, current)
    ensures UnderFor(target, 1000.0, current) == [("AAPL", 0.3), ("GOOGL", 0.2)]
  {
    assert "AAPL"[0] != "GOOGL"[0];
    assert current[1..] == [("GOOGL", 400.0)] && current[1..][1..] == [];
    assert SumValues(current[1..]) == 400.0;
    assert FutureTotal(current, 1000.0) == 2000.0;
    assert Get(current, "AAPL") == Some(600.0) && Get(current, "GOOGL") == Some(400.0);
    assert GapOf(target, 1000.0, current, 0) == 0.3;
    assert GapOf(target, 1000.0, current, 1) == 0.2;
    AllUnderTarget(target, 1000.0, current);
  }

  /** A balanced 60/40 portfolio gets the new money split 60/40 as well. */
  lemma BalancedExample(target: Dict<real>, current: Dict<real>, prices: Dict<real>)
    requires target == [("AAPL", 0.6), ("GOOGL", 0.4)]
    requires current == [("AAPL", 600.0), ("GOOGL", 400.0)]
    requires prices == [("AAPL", 150.0), ("GOOGL", 200.0)]
    ensures Allocate(target, 1000.0, current, prices) == [("AAPL", 4), ("GOOGL", 2)]
  {
    SixtyFortyTargets(target);
    BalancedGaps(target, current);
    AllocateFromUnder(target, 1000.0, current, prices);
    BalancedShares([("AAPL", 0.3), ("GOOGL", 0.2)], prices);
  }

  lemma BalancedShares(under: Dict<real>, prices: Dict<real>)
    requires under == [("AAPL", 0.3), ("GOOGL", 0.2)]
    requires prices == [("AAPL", 150.0), ("GOOGL", 200.0)]
    ensures SumValues(under) == 0.5
    ensures SharesToBuy(under, 0.5, 1000.0, prices) == [("AAPL", 4), ("GOOGL", 2)]
  {
    assert "AAPL"[0] != "GOOGL"[0];
    assert under[1..] == [("GOOGL", 0.2)] && under[1..][1..] == [];
    assert SumValues(under[1..]) == 0.2;
    assert prices[1..] == [("GOOGL", 200.0)];
    assert Get(prices, "AAPL") == Some(150.0) && Get(prices, "GOOGL") == Some(200.0);
    assert DollarAmount(0.3, 0.5, 1000.0) == 600.0;
    assert DollarAmount(0.2, 0.5, 1000.0) == 400.0;
    assert SharesFor(600.0, prices, "AAPL") == 4;
    assert SharesFor(400.0, prices, "GOOGL") == 2;
  }

  /** An over-allocated symbol is left out; the under-allocated one takes all the cash. */
  lemma OverAllocatedExample(target: Dict<real>, current: Dict<real>, prices: Dict<real>)
    requires target == [("AAPL", 0.7), ("GOOGL", 0.3)]
    requires current == [("AAPL", 100.0), ("GOOGL", 900.0)]
    requires prices == [("AAPL", 150.0), ("GOOGL", 200.0)]
    ensures Allocate(target, 1000.0, current, prices) == [("AAPL", 6)]
  {
    assert "AAPL"[0] != "GOOGL"[0];
    OverAllocatedGaps(target, current);
    AllocateFromUnder(target, 1000.0, current, prices);
    OverAllocatedShares([("AAPL", 0.65)], prices);
  }

  lemma OverAllocatedGaps(target: Dict<real>, current: Dict<real>)
    requires target == [("AAPL", 0.7), ("GOOGL", 0.3)]
    requires current == [("AAPL", 100.0), ("GOOGL", 900.0)]
    ensures DistinctKeys(target) && Active(target, 1000.0, current)
    ensures UnderFor(target, 1000.0, current) == [("AAPL", 0.65)]
  {
    assert "AAPL"[0] != "GOOGL"[0];
    assert current[1..] == [("GOOGL", 900.0)] && current[1..][1..] == [];
    assert SumValues(current[1..]) == 900.0;
    assert FutureTotal(current, 1000.0) == 2000.0;
    assert Get(current, "AAPL") == Some(100.0) && Get(current, "GOOGL") == Some(900.0);
    GapsAreGapOf(target, 1000.0, current);
    var gaps := Gaps(target, CurrentPcts(target, current, 2000.0));
    assert GapOf(target, 1000.0, current, 0) == 0.65;
    assert GapOf(target, 1000.0, current, 1) == -0.15;
    assert gaps == [("AAPL", 0.65), ("GOOGL", -0.15)];
    assert gaps[1..] == [("GOOGL", -0.15)] && gaps[1..][1..] == [];
  }

  lemma OverAllocatedShares(under: Dict<real>, prices: Dict<real>)
    requires under == [("AAPL", 0.65)]
    requires prices == [("AAPL", 150.0), ("GOOGL", 200.0)]
    ensures SumValues(under) == 0.65
    ensures SharesToBuy(under, 0.65, 1000.0, prices) == [("AAPL", 6)]
  {
    assert under[1..] == [];
    assert Get(prices, "AAPL") == Some(150.0);
    assert DollarAmount(0.65, 0.65, 1000.0) == 1000.0;
    assert SharesFor(1000.0, prices, "AAPL") == 6;
  }

  /** A symbol without a price is recommended with 0 shares. */
  lemma MissingPriceExample(target: Dict<real>, prices: Dict<real>)
    requires target == [("AAPL", 0.6), ("GOOGL", 0.4)]
    requires prices == [("AAPL", 150.0)]
    ensures Allocate(target, 1000.0, [], prices) == [("AAPL", 4), ("GOOGL", 0)]
  {
    SixtyFortyTargets(target);
    EmptyPortfolioGaps(target, 1000.0);
    AllocateFromUnder(target, 1000.0, [], prices);
    MissingPriceShares(target, prices);
  }

  lemma SixtyFortyTargets(target: Dict<real>)
    requires target == [("AAPL", 0.6), ("GOOGL", 0.4)]
    ensures DistinctKeys(target) && SumValues(target) == 1.0
    ensures forall i :: 0 <= i < |target| ==> target[i].1 > 0.0
  {
    assert "AAPL"[0] != "GOOGL"[0];
    assert target[1..] == [("GOOGL", 0.4)] && target[1..][1..] == [];
    assert SumValues(target[1..]) == 0.4;
  }

  lemma MissingPriceShares(target: Dict<real>, prices: Dict<real>)
    requires target == [("AAPL", 0.6), ("GOOGL", 0.4)]
    requires prices == [("AAPL", 150.0)]
    ensures SharesToBuy(target, 1.0, 1000.0, prices) == [("AAPL", 4), ("GOOGL", 0)]
  {
    assert "AAPL"[0] != "GOOGL"[0];
    assert prices[1..] == [];
    assert Get(prices, "AAPL") == Some(150.0);
    assert Get(prices, "GOOGL") == None;
    assert SharesFor(600.0, prices, "AAPL") == 4;
    assert SharesFor(400.0, prices, "GOOGL") == 0;
    assert DollarAmount(0.6, 1.0, 1000.0) == 600.0;
    assert DollarAmount(0.4, 1.0, 1000.0) == 400.0;
  }
}
