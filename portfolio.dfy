/**
 * A named, ordered collection of holdings and its aggregate metrics
 * (Models/PortfolioModel.swift).  Every aggregate is a left-to-right sum,
 * as `map { ... }.reduce(0, +)` computes it.
 */
module Portfolios {
  import opened Wrappers
  import opened Holdings

  /** `hs.map(f).reduce(0, +)`. */
  function Sum(hs: seq<HoldingState>, f: HoldingState -> real): real {
    if hs == [] then 0.0 else Sum(hs[..|hs| - 1], f) + f(hs[|hs| - 1])
  }

  function TotalPriceOf(h: HoldingState): real { h.TotalPrice() }
  function CostBasisOf(h: HoldingState): real { h.CostBasis() }
  function DollarGainsOf(h: HoldingState): real { h.Gains().dollarAmount }

  /** Every ticker occurs at most once: the one-entry-per-position rule. */
  predicate UniqueTickers(hs: seq<HoldingState>) {
    forall i, j | 0 <= i < j < |hs| :: hs[i].ticker != hs[j].ticker
  }

  /** The stored properties of a portfolio. */
  datatype PortfolioState = PortfolioState(name: string, holdings: seq<HoldingState>) {

    function NumHoldings(): int {
      |holdings|
    }

    predicate IsEmpty() {
      holdings == []
    }

    function TotalValue(): real {
      Sum(holdings, TotalPriceOf)
    }

    function Gains(): Gains {
      var dollarGains := Sum(holdings, DollarGainsOf);
      GainsOf(dollarGains, TotalValue())
    }
  }

  lemma {:induction false} SumAppend(hs: seq<HoldingState>, extra: seq<HoldingState>, f: HoldingState -> real)
    ensures Sum(hs + extra, f) == Sum(hs, f) + Sum(extra, f)
    decreases |extra|
  {
    if extra != [] {
      var last := |extra| - 1;
      assert (hs + extra)[..|hs + extra| - 1] == hs + extra[..last];
      SumAppend(hs, extra[..last], f);
    } else {
      assert hs + extra == hs;
    }
  }

  /** Replacing one entry changes the sum by exactly the difference. */
  lemma {:induction false} SumUpdate(hs: seq<HoldingState>, k: nat, x: HoldingState, f: HoldingState -> real)
    requires k < |hs|
    ensures Sum(hs[k := x], f) == Sum(hs, f) - f(hs[k]) + f(x)
    decreases |hs|
  {
    var last := |hs| - 1;
    assert hs[k := x][..last] == if k == last then hs[..last] else hs[..last][k := x];
    if k < last {
      SumUpdate(hs[..last], k, x, f);
    }
  }

  /** The summed dollar gain is the total value minus the summed cost basis. */
  lemma {:induction false} DollarGainsSum(hs: seq<HoldingState>)
    ensures Sum(hs, DollarGainsOf) == Sum(hs, TotalPriceOf) - Sum(hs, CostBasisOf)
    decreases |hs|
  {
    if hs != [] {
      DollarGainsSum(hs[..|hs| - 1]);
      GainsRelativeToCost(hs[|hs| - 1]);
    }
  }

  /** `numHoldings` counts the holdings and `isEmpty` means there are none. */
  lemma CountAndEmptiness(p: PortfolioState)
    ensures p.NumHoldings() == |p.holdings|
    ensures p.IsEmpty() <==> p.NumHoldings() == 0
  {
  }

  /** The value of an empty portfolio is 0, and appending a holding adds
      exactly that holding's value. */
  lemma TotalValueAppend(p: PortfolioState, h: HoldingState)
    ensures PortfolioState(p.name, []).TotalValue() == 0.0
    ensures PortfolioState(p.name, p.holdings + [h]).TotalValue() == p.TotalValue() + h.TotalPrice()
  {
    assert (p.holdings + [h])[..|p.holdings|] == p.holdings;
  }

  /** The portfolio's dollar gain is its value minus its summed cost basis;
      its percentage is relative to that cost basis and absent when the
      cost basis is zero, in particular for an empty portfolio. */
  lemma PortfolioGainsRelativeToCost(p: PortfolioState)
    ensures p.Gains().dollarAmount == p.TotalValue() - Sum(p.holdings, CostBasisOf)
    ensures p.Gains().percentAmount.None? <==> Sum(p.holdings, CostBasisOf) == 0.0
    ensures p.Gains().percentAmount.Some? ==>
      p.Gains().percentAmount.value ==
        (p.TotalValue() - Sum(p.holdings, CostBasisOf)) / Sum(p.holdings, CostBasisOf) * 100.0
    ensures p.IsEmpty() ==> p.TotalValue() == 0.0 && p.Gains() == Gains(0.0, None)
  {
    DollarGainsSum(p.holdings);
  }

  class Portfolio {
    var name: string
    var holdings: seq<Holding>

    /** `Portfolio(name:holdings:)`, the holdings defaulting to none. */
    constructor (name: string, holdings: seq<Holding> := [])
      ensures this.name == name && this.holdings == holdings
    {
      this.name := name;
      this.holdings := holdings;
    }

    function State(): PortfolioState
      reads this, holdings
    {
      PortfolioState(name, States(holdings))
    }
  }

  /** The current state of each holding, in order. */
  function States(hs: seq<Holding>): (r: seq<HoldingState>)
    reads hs
    ensures |r| == |hs|
    ensures forall i | 0 <= i < |hs| :: r[i] == hs[i].State()
  {
    if hs == [] then [] else States(hs[..|hs| - 1]) + [hs[|hs| - 1].State()]
  }

  /** `Portfolio.==`: portfolios are identified by name. */
  predicate SamePortfolio(a: Portfolio, b: Portfolio)
    reads a, b
  {
    a.name == b.name
  }

  /** `Portfolio.hash(into:)` feeds only the name to the hasher. */
  function PortfolioHash(p: Portfolio, combine: string -> int): int
    reads p
  {
    combine(p.name)
  }

  lemma SamePortfolioSameHash(a: Portfolio, b: Portfolio, combine: string -> int)
    requires SamePortfolio(a, b)
    ensures PortfolioHash(a, combine) == PortfolioHash(b, combine)
  {
  }

  // The `[Portfolio]` extension: net worth across portfolios.

  function NetTotalValue(ps: seq<PortfolioState>): real {
    if ps == [] then 0.0 else NetTotalValue(ps[..|ps| - 1]) + ps[|ps| - 1].TotalValue()
  }

  function NetDollarGains(ps: seq<PortfolioState>): real {
    if ps == [] then 0.0 else NetDollarGains(ps[..|ps| - 1]) + ps[|ps| - 1].Gains().dollarAmount
  }

  function NetGains(ps: seq<PortfolioState>): Gains {
    GainsOf(NetDollarGains(ps), NetTotalValue(ps))
  }

  /** All holdings of all portfolios, in order. */
  function AllHoldings(ps: seq<PortfolioState>): seq<HoldingState> {
    if ps == [] then [] else AllHoldings(ps[..|ps| - 1]) + ps[|ps| - 1].holdings
  }

  /** Net worth is the value of all holdings taken together, its dollar gain
      their value minus their cost, and both are 0 for no portfolios; the
      percentage is relative to the overall cost basis. */
  lemma {:induction false} NetWorthOfAllHoldings(ps: seq<PortfolioState>)
    ensures NetTotalValue(ps) == Sum(AllHoldings(ps), TotalPriceOf)
    ensures NetDollarGains(ps) == Sum(AllHoldings(ps), DollarGainsOf)
    ensures NetDollarGains(ps) == NetTotalValue(ps) - Sum(AllHoldings(ps), CostBasisOf)
    ensures NetGains(ps).percentAmount.None? <==> Sum(AllHoldings(ps), CostBasisOf) == 0.0
    ensures ps == [] ==> NetTotalValue(ps) == 0.0 && NetDollarGains(ps) == 0.0
    decreases |ps|
  {
    if ps != [] {
      var init, last := ps[..|ps| - 1], ps[|ps| - 1];
      NetWorthOfAllHoldings(init);
      SumAppend(AllHoldings(init), last.holdings, TotalPriceOf);
      SumAppend(AllHoldings(init), last.holdings, DollarGainsOf);
      DollarGainsSum(last.holdings);
    }
    DollarGainsSum(AllHoldings(ps));
  }
}
