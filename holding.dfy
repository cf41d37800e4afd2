/**
 * One position in one ticker (Models/HoldingModel.swift).
 *
 * The stored properties live in the class `Holding`, which other code
 * updates in place; `HoldingState` is the value of those properties at one
 * moment, and the derived getters (`totalPrice`, `costBasis`, `gains`,
 * `imageURL`) are functions of that value, recomputed on every read.
 */
module Holdings {
  import opened Wrappers
  import opened Text

  /** Percent of `total - dollar`, the formula every `gains` getter uses;
      absent when that denominator is zero (where Float arithmetic would
      give an infinity or NaN). */
  function PercentOf(dollar: real, total: real): (p: Option<real>)
    ensures p.Some? <==> total - dollar != 0.0
    ensures p.Some? ==> p.value * (total - dollar) == dollar * 100.0
  {
    if total - dollar == 0.0 then None else Some(dollar / (total - dollar) * 100.0)
  }

  datatype GainsType = Dollar | Percent

  /** The `Gains` value object: a dollar amount and a percentage, the latter
      absent when it is not a finite number. */
  datatype Gains = Gains(dollarAmount: real, percentAmount: Option<real>) {

    predicate IsPositive() {
      dollarAmount >= 0.0 && percentAmount.Some? && percentAmount.value >= 0.0
    }

    /** The amount in the requested style, preceded by "+" when positive. */
    function FormatForDisplay(kind: GainsType): (t: Text)
      ensures |t| >= 1
      ensures t[0] == Char('+') <==> IsPositive()
      ensures kind == Percent ==>
      t[|t| - 1] == Char('%') && |t| == (if IsPositive() then 3 else 2) &&
      t[|t| - 2] == (match percentAmount
                     case Some(p) => Number(FractionDigits(2), p)
                     case None => NonFinite(FractionDigits(2)))
      ensures kind == Dollar ==>
        t[|t| - 1] == Number(Currency, dollarAmount) && |t| == if IsPositive() then 2 else 1
    {
      var amount := match kind
        case Dollar => [Number(Currency, dollarAmount)]
        case Percent =>
          (match percentAmount
           case Some(p) => [Number(FractionDigits(2), p)]
           case None => [NonFinite(FractionDigits(2))]) + [Char('%')];
      if IsPositive() then [Char('+')] + amount else amount
    }
  }

  /** Combines a dollar gain with the total it is measured against. */
  function GainsOf(dollar: real, total: real): Gains {
    Gains(dollar, PercentOf(dollar, total))
  }

  const LogoBase := "http://localhost:8000/logos/"

  /** Every stored property of a holding. */
  datatype HoldingState = HoldingState(
    ticker: string,
    numShares: real,
    lastPrice: real,
    averagePrice: real,
    name: Option<string>,
    desc: Option<string>,
    sector: Option<string>,
    website: Option<string>,
    marketCap: Option<real>,
    peRatio: Option<real>,
    dividendYield: Option<real>,
    beta: Option<real>,
    fiftyTwoWeekHigh: Option<real>,
    fiftyTwoWeekLow: Option<real>,
    previousClose: Option<real>,
    averageVolume: Option<int>,
    industry: Option<string>,
    country: Option<string>,
    employees: Option<int>)
  {
    function TotalPrice(): real {
      numShares * lastPrice
    }

    function CostBasis(): real {
      numShares * averagePrice
    }

    function Gains(): Gains {
      var dollarGains := TotalPrice() - CostBasis();
      GainsOf(dollarGains, TotalPrice())
    }

    function ImageUrl(): string {
      LogoBase + ticker
    }
  }

  /** The state `Holding.init` leaves: no descriptive or market data yet. */
  function NewHoldingState(ticker: string, numShares: real, lastPrice: real, averagePrice: real): HoldingState {
    HoldingState(ticker, numShares, lastPrice, averagePrice,
                 None, None, None, None, None, None, None, None,
                 None, None, None, None, None, None, None)
  }

  /** Dollar gain is value minus cost, and the percentage's denominator
      `totalPrice - dollar` is the cost basis: the percentage is the gain
      relative to cost, absent exactly when the cost basis is zero. */
  lemma GainsRelativeToCost(s: HoldingState)
    ensures s.Gains().dollarAmount == s.TotalPrice() - s.CostBasis()
    ensures s.Gains().percentAmount.None? <==> s.CostBasis() == 0.0
    ensures s.CostBasis() != 0.0 ==>
      s.Gains().percentAmount == Some((s.TotalPrice() - s.CostBasis()) / s.CostBasis() * 100.0)
  {
    var dollar := s.TotalPrice() - s.CostBasis();
    assert s.TotalPrice() - dollar == s.CostBasis();
  }

  /** With a positive cost basis the gains are positive exactly when the
      position is worth at least what it cost. */
  lemma GainsSign(s: HoldingState)
    ensures s.CostBasis() > 0.0 ==> (s.Gains().IsPositive() <==> s.TotalPrice() >= s.CostBasis())
    ensures s.TotalPrice() < s.CostBasis() ==> !s.Gains().IsPositive()
    ensures s.CostBasis() == 0.0 ==> !s.Gains().IsPositive()
  {
    GainsRelativeToCost(s);
    var cost := s.CostBasis();
    var dollar := s.TotalPrice() - cost;
    if cost > 0.0 {
      assert s.Gains().percentAmount == Some(dollar / cost * 100.0);
      DivSign(dollar, cost);
    }
  }

  lemma DivSign(a: real, b: real)
    requires b > 0.0
    ensures a / b * 100.0 >= 0.0 <==> a >= 0.0
  {
    if a >= 0.0 {
      assert a / b >= 0.0;
    } else {
      assert a / b < 0.0;
    }
  }

  class Holding {
    var ticker: string
    var numShares: real
    var lastPrice: real
    var averagePrice: real
    var name: Option<string>
    var desc: Option<string>
    var sector: Option<string>
    var website: Option<string>
    var marketCap: Option<real>
    var peRatio: Option<real>
    var dividendYield: Option<real>
    var beta: Option<real>
    var fiftyTwoWeekHigh: Option<real>
    var fiftyTwoWeekLow: Option<real>
    var previousClose: Option<real>
    var averageVolume: Option<int>
    var industry: Option<string>
    var country: Option<string>
    var employees: Option<int>

    /** `Holding(ticker:numShares:lastPrice:averagePrice:)`; the two prices
        default to 0 and every descriptive field starts absent. */
    constructor (ticker: string, numShares: real, lastPrice: real := 0.0, averagePrice: real := 0.0)
      ensures State() == NewHoldingState(ticker, numShares, lastPrice, averagePrice)
    {
      this.ticker := ticker;
      this.numShares := numShares;
      this.lastPrice := lastPrice;
      this.averagePrice := averagePrice;
      name, desc, sector, website := None, None, None, None;
      marketCap, peRatio, dividendYield, beta := None, None, None, None;
      fiftyTwoWeekHigh, fiftyTwoWeekLow, previousClose, averageVolume := None, None, None, None;
      industry, country, employees := None, None, None;
    }

    function State(): HoldingState
      reads this
    {
      HoldingState(ticker, numShares, lastPrice, averagePrice,
                   name, desc, sector, website,
                   marketCap, peRatio, dividendYield, beta,
                   fiftyTwoWeekHigh, fiftyTwoWeekLow, previousClose, averageVolume,
                   industry, country, employees)
    }
  }

  /** `Holding.==`: two holdings are the same position when their tickers agree. */
  predicate SameHolding(a: Holding, b: Holding)
    reads a, b
  {
    a.ticker == b.ticker
  }

  /** `Holding.hash(into:)` feeds only the ticker to the hasher; `combine`
      stands for whatever the hasher does with it. */
  function HashValue(h: Holding, combine: string -> int): int
    reads h
  {
    combine(h.ticker)
  }

  /** Equal holdings hash equally, whatever the hasher. */
  lemma SameHoldingSameHash(a: Holding, b: Holding, combine: string -> int)
    requires SameHolding(a, b)
    ensures HashValue(a, combine) == HashValue(b, combine)
  {
  }

  /** Logo URLs all point at the local server's logo route, and two
      holdings share a logo URL exactly when they share a ticker. */
  lemma ImageUrlIdentifiesTicker(a: HoldingState, b: HoldingState)
    ensures a.ImageUrl()[..|LogoBase|] == LogoBase
    ensures a.ImageUrl() == b.ImageUrl() <==> a.ticker == b.ticker
  {
    assert a.ImageUrl()[|LogoBase|..] == a.ticker;
    assert b.ImageUrl()[|LogoBase|..] == b.ticker;
  }

  /** The constructor with the prices omitted starts both at zero, so the
      position is worth nothing and cost nothing until it is refreshed. */
  lemma NewHoldingDefaults(ticker: string, numShares: real)
    ensures NewHoldingState(ticker, numShares, 0.0, 0.0).TotalPrice() == 0.0
    ensures NewHoldingState(ticker, numShares, 0.0, 0.0).CostBasis() == 0.0
    ensures NewHoldingState(ticker, numShares, 0.0, 0.0).Gains() == Gains(0.0, None)
  {
  }
}
