/** Account selection and the account summary: `set_account` checks the account
    data before it replaces the selected account, the portfolio and balance calls
    refuse to run without a selected account, and the summary aggregates the
    positions once both calls have succeeded. The HTTP requests and the flattening
    of their replies are outside the model: their outcomes are parameters. */
module Accounts {
  import opened Basics
  import opened Dicts
  import opened Values

  const AccountRequired: string := "Account data is required"
  const AccountSet: string := "Account set successfully"
  const NotSelected: string := "Account not selected. Please set account first."
  const NoAccount: string := "No account selected"

  /** The fields `set_account` insists on, in the order it checks them. */
  const RequiredAccountFields: seq<string> := ["accountIdKey", "institutionType"]

  /** The first of `fields` the data lacks, if any. */
  function FirstMissing(data: Dict<Value>, fields: seq<string>): (r: Option<string>)
    ensures r.None? <==> forall k :: 0 <= k < |fields| ==> Has(data, fields[k])
    ensures r.Some? ==> exists k :: 0 <= k < |fields| && fields[k] == r.value && !Has(data, fields[k])
                                   && forall m :: 0 <= m < k ==> Has(data, fields[m])
  {
    if fields == [] then None
    else if !Has(data, fields[0]) then Some(fields[0])
    else
      var r := FirstMissing(data, fields[1..]);
      assert forall k :: 1 <= k < |fields| ==> fields[k] == fields[1..][k - 1];
      r
  }

  /** The error naming a missing required field. */
  function MissingField(field: string): string
  {
    "Missing required field: " + field
  }

  /** What `set_account` answers: the error, or the success message. */
  function SetAccountOutcome(accountData: Option<Dict<Value>>): (r: Result<string, string>)
    ensures r.Ok? ==> r.value == AccountSet
    ensures r.Err? ==> r.error in {AccountRequired, MissingField("accountIdKey"), MissingField("institutionType")}
  {
    if accountData.None? || accountData.value == [] then Err(AccountRequired)
    else
      FirstMissingRequired(accountData.value);
      match FirstMissing(accountData.value, RequiredAccountFields)
      case Some(field) => Err(MissingField(field))
      case None => Ok(AccountSet)
  }

  /** The two required fields, checked in turn. */
  lemma FirstMissingRequired(data: Dict<Value>)
    ensures FirstMissing(data, RequiredAccountFields) ==
      if !Has(data, "accountIdKey") then Some("accountIdKey")
      else if !Has(data, "institutionType") then Some("institutionType")
      else None
  {
    assert RequiredAccountFields[1..] == ["institutionType"];
    assert RequiredAccountFields[1..][1..] == [];
  }

  /** The data is accepted exactly when it names both required fields; a missing
      accountIdKey is reported before a missing institutionType. */
  lemma SetAccountOutcomeMeaning(accountData: Option<Dict<Value>>)
    ensures SetAccountOutcome(accountData).Ok? <==>
      accountData.Some? && Has(accountData.value, "accountIdKey") && Has(accountData.value, "institutionType")
    ensures SetAccountOutcome(accountData).Ok? ==> SetAccountOutcome(accountData) == Ok(AccountSet)
    ensures accountData.None? || accountData.value == [] ==> SetAccountOutcome(accountData) == Err(AccountRequired)
    ensures accountData.Some? && accountData.value != [] && !Has(accountData.value, "accountIdKey") ==>
      SetAccountOutcome(accountData) == Err(MissingField("accountIdKey"))
    ensures accountData.Some? && Has(accountData.value, "accountIdKey") && !Has(accountData.value, "institutionType") ==>
      SetAccountOutcome(accountData) == Err(MissingField("institutionType"))
  {
    if accountData.Some? {
      FirstMissingRequired(accountData.value);
    }
  }

  /** A cleaned position as far as the summary looks at it: its market value and its
      total gain, each absent when the reply did not carry it. */
  datatype Position = Position(marketValue: Option<real>, totalGain: Option<real>)

  /** `pos.get("market_value", 0)` */
  function MarketValue(p: Position): real
  {
    if p.marketValue.Some? then p.marketValue.value else 0.0
  }

  /** `pos.get("total_gain", 0)` */
  function Gain(p: Position): real
  {
    if p.totalGain.Some? then p.totalGain.value else 0.0
  }

  function MarketValueSum(ps: seq<Position>): real
  {
    if ps == [] then 0.0 else MarketValue(ps[0]) + MarketValueSum(ps[1..])
  }

  function GainSum(ps: seq<Position>): real
  {
    if ps == [] then 0.0 else Gain(ps[0]) + GainSum(ps[1..])
  }

  /** The positions with a strictly positive gain, in order. */
  function Gainers(ps: seq<Position>): (r: seq<Position>)
    ensures |r| <= |ps|
    ensures forall p :: p in r ==> p in ps && Gain(p) > 0.0
    ensures forall p :: p in ps && Gain(p) > 0.0 ==> p in r
  {
    if ps == [] then []
    else
      var rest := Gainers(ps[1..]);
      assert forall p :: p in ps ==> p == ps[0] || p in ps[1..];
      if Gain(ps[0]) > 0.0 then [ps[0]] + rest else rest
  }

  /** The positions with a strictly negative gain, in order. */
  function Losers(ps: seq<Position>): (r: seq<Position>)
    ensures |r| <= |ps|
    ensures forall p :: p in r ==> p in ps && Gain(p) < 0.0
    ensures forall p :: p in ps && Gain(p) < 0.0 ==> p in r
  {
    if ps == [] then []
    else
      var rest := Losers(ps[1..]);
      assert forall p :: p in ps ==> p == ps[0] || p in ps[1..];
      if Gain(ps[0]) < 0.0 then [ps[0]] + rest else rest
  }

  /** A position with no gain is counted neither as a gain nor as a loss. */
  lemma {:induction false} CountsBound(ps: seq<Position>)
    ensures |Gainers(ps)| + |Losers(ps)| <= |ps|
  {
    if ps != [] {
      CountsBound(ps[1..]);
    }
  }

  lemma {:induction false} GainSumAppendFront(p: Position, ps: seq<Position>)
    ensures GainSum([p] + ps) == Gain(p) + GainSum(ps)
  {
    assert ([p] + ps)[1..] == ps;
  }

  /** The total gain is the gainers' total plus the losers' total: the positions
      without a gain add nothing. */
  lemma {:induction false} GainSumSplit(ps: seq<Position>)
    ensures GainSum(ps) == GainSum(Gainers(ps)) + GainSum(Losers(ps))
  {
    if ps != [] {
      GainSumSplit(ps[1..]);
      if Gain(ps[0]) > 0.0 {
        GainSumAppendFront(ps[0], Gainers(ps[1..]));
      } else if Gain(ps[0]) < 0.0 {
        GainSumAppendFront(ps[0], Losers(ps[1..]));
      }
    }
  }

  /** The gainers' total is positive exactly when there is a gainer. */
  lemma {:induction false} GainersTotal(ps: seq<Position>)
    ensures GainSum(Gainers(ps)) >= 0.0
    ensures GainSum(Gainers(ps)) > 0.0 <==> |Gainers(ps)| > 0
  {
    if ps != [] {
      GainersTotal(ps[1..]);
      if Gain(ps[0]) > 0.0 {
        GainSumAppendFront(ps[0], Gainers(ps[1..]));
      }
    }
  }

  /** The losers' total is negative exactly when there is a loser. */
  lemma {:induction false} LosersTotal(ps: seq<Position>)
    ensures GainSum(Losers(ps)) <= 0.0
    ensures GainSum(Losers(ps)) < 0.0 <==> |Losers(ps)| > 0
  {
    if ps != [] {
      LosersTotal(ps[1..]);
      if Gain(ps[0]) < 0.0 {
        GainSumAppendFront(ps[0], Losers(ps[1..]));
      }
    }
  }

  /** `portfolio_summary` */
  datatype PortfolioSummary = PortfolioSummary(totalPositions: nat, totalMarketValue: real, totalGainLoss: real,
                                               positionsWithGains: nat, positionsWithLosses: nat)

  /** The statistics over the positions. A positive total gain means some position
      gained, a negative one that some position lost, and gains and losses together
      never count more positions than there are. */
  function Summarise(ps: seq<Position>): (s: PortfolioSummary)
    ensures s.totalPositions == |ps|
    ensures s.positionsWithGains + s.positionsWithLosses <= s.totalPositions
    ensures s.totalGainLoss > 0.0 ==> s.positionsWithGains > 0
    ensures s.totalGainLoss < 0.0 ==> s.positionsWithLosses > 0
    ensures s.positionsWithGains == 0 && s.positionsWithLosses == 0 ==> s.totalGainLoss == 0.0
  {
    CountsBound(ps);
    GainSumSplit(ps);
    GainersTotal(ps);
    LosersTotal(ps);
    PortfolioSummary(|ps|, MarketValueSum(ps), GainSum(ps), |Gainers(ps)|, |Losers(ps)|)
  }

  /** With every market value known and non-negative, the total is non-negative. */
  lemma {:induction false} MarketValueSumNonNegative(ps: seq<Position>)
    requires forall k :: 0 <= k < |ps| ==> MarketValue(ps[k]) >= 0.0
    ensures MarketValueSum(ps) >= 0.0
  {
    if ps != [] {
      assert forall k :: 0 <= k < |ps| - 1 ==> ps[1..][k] == ps[k + 1];
      MarketValueSumNonNegative(ps[1..]);
    }
  }

  /** `account_summary` */
  datatype AccountSummary = AccountSummary(accountId: Value, accountDescription: Value, balance: Dict<Value>,
                                           portfolioSummary: PortfolioSummary, positions: seq<Position>)

  /** The selected account and the calls that depend on it. */
  class Accounts {
    /** `self.account`: the empty dict until an account is set. */
    var account: Dict<Value>

    /** Only `set_account` stores an account, and only one naming both required fields. */
    ghost predicate Valid()
      reads this
    {
      account == [] || (Has(account, "accountIdKey") && Has(account, "institutionType"))
    }

    constructor()
      ensures account == []
      ensures Valid()
    {
      account := [];
    }

    /** The guard of `portfolio` and `balance`: an account with an accountIdKey. */
    predicate Selected()
      reads this
    {
      account != [] && Has(account, "accountIdKey")
    }

    /** `set_account`: refuse missing data and data without a required field,
        otherwise replace the account. */
    method SetAccount(accountData: Option<Dict<Value>>) returns (r: Result<string, string>)
      requires Valid()
      modifies this
      ensures Valid()
      ensures r == SetAccountOutcome(accountData)
      ensures r.Ok? ==> account == accountData.value && Selected()
      ensures r.Err? ==> account == old(account)
    {
      if accountData.None? || accountData.value == [] {
        return Err(AccountRequired);
      }
      var data := accountData.value;
      for k := 0 to |RequiredAccountFields|
        invariant FirstMissing(data, RequiredAccountFields) == FirstMissing(data, RequiredAccountFields[k..])
      {
        var field := RequiredAccountFields[k];
        assert RequiredAccountFields[k..][1..] == RequiredAccountFields[k + 1..];
        if !Has(data, field) {
          return Err(MissingField(field));
        }
      }
      assert RequiredAccountFields[|RequiredAccountFields|..] == [];
      assert Has(data, RequiredAccountFields[0]) && Has(data, RequiredAccountFields[1]);
      account := data;
      return Ok(AccountSet);
    }

    /** The guard `portfolio` and `balance` share: without a selected account the
        refusal, before any request; otherwise `fetched`, which stands for the
        outcome of the request and the flattening of its reply. */
    function WithSelectedAccount<T>(fetched: Result<T, string>): (r: Result<T, string>)
      reads this
      ensures !Selected() ==> r == Err(NotSelected)
      ensures Selected() ==> r == fetched
    {
      if account == [] || !Has(account, "accountIdKey") then Err(NotSelected) else fetched
    }

    /** The accountIdKey and institutionType `balance` sends, or the refusal. */
    function BalanceRequest(): (r: Result<(Value, Value), string>)
      requires Valid()
      reads this
      ensures r.Ok? <==> Selected()
      ensures r.Err? ==> r.error == NotSelected
      ensures r.Ok? ==> Get(account, "accountIdKey") == Some(r.value.0)
                        && Get(account, "institutionType") == Some(r.value.1)
    {
      if account == [] || !Has(account, "accountIdKey") then Err(NotSelected)
      else Ok((GetOr(account, "accountIdKey", Null), GetOr(account, "institutionType", Null)))
    }

    /** `get_account_summary`: without an account the refusal; then the balance
        error; then the portfolio error; only then the summary. */
    function GetAccountSummary(balanceFetch: Result<Dict<Value>, string>,
                               portfolioFetch: Result<seq<Position>, string>): (r: Result<AccountSummary, string>)
      reads this
      ensures !Selected() ==> r == Err(NotSelected)
      ensures Selected() && balanceFetch.Err? ==> r == Err(balanceFetch.error)
      ensures Selected() && balanceFetch.Ok? && portfolioFetch.Err? ==> r == Err(portfolioFetch.error)
      ensures r.Ok? <==> Selected() && balanceFetch.Ok? && portfolioFetch.Ok?
      ensures r.Ok? ==> r.value.balance == balanceFetch.value && r.value.positions == portfolioFetch.value
                        && r.value.accountId == GetOr(balanceFetch.value, "accountId", Null)
                        && r.value.accountDescription == GetOr(balanceFetch.value, "accountDescription", Null)
                        && r.value.portfolioSummary.totalPositions == |portfolioFetch.value|
    {
      if account == [] then Err(NotSelected)
      else
        match WithSelectedAccount(balanceFetch)
        case Err(e) => Err(e)
        case Ok(balance) =>
          match WithSelectedAccount(portfolioFetch)
          case Err(e) => Err(e)
          case Ok(positions) =>
            Ok(AccountSummary(GetOr(balance, "accountId", Null), GetOr(balance, "accountDescription", Null),
                              balance, Summarise(positions), positions))
    }

    /** `get_account_info`: the stored account, or the error when there is none. */
    function GetAccountInfo(): (r: Result<Dict<Value>, string>)
      reads this
      ensures r.Err? <==> account == []
      ensures r.Err? ==> r.error == NoAccount
      ensures r.Ok? ==> r.value == account
    {
      if account == [] then Err(NoAccount) else Ok(account)
    }
  }
}
