/**
 * The older single-screen view model (StonkViewModel.swift): one list of
 * portfolios and the portfolio currently shown, with the same
 * append-or-merge and refresh rules as `StonkManager`, applied to the
 * current portfolio only.
 */
module LegacyViewModel {
  import opened Holdings
  import opened Portfolios
  import opened Service
  import opened Manager

  class PortfolioViewModel {
    const service: StonkService
    var portfolioList: seq<Portfolio>
    var currentPortfolio: Portfolio

    /** `init(service:)`: a single, empty portfolio named "Portfolio 1",
        which is also the current one. */
    constructor (service: StonkService)
      ensures this.service == service
      ensures fresh(currentPortfolio)
      ensures portfolioList == [currentPortfolio]
      ensures currentPortfolio.name == "Portfolio 1" && currentPortfolio.holdings == []
    {
      this.service := service;
      var firstPortfolio := new Portfolio("Portfolio 1");
      portfolioList := [firstPortfolio];
      currentPortfolio := firstPortfolio;
    }

    /** `addHolding(_:)`: the append-or-merge rule on the current portfolio;
        the list and the choice of current portfolio stay as they were, and
        no refresh is started. */
    method AddHolding(newHolding: Holding)
      requires IsUpperCase(newHolding.ticker)
      requires CanMerge(States(currentPortfolio.holdings), newHolding.State())
      modifies currentPortfolio, currentPortfolio.holdings
      ensures portfolioList == old(portfolioList) && currentPortfolio == old(currentPortfolio)
      ensures currentPortfolio.name == old(currentPortfolio.name)
      ensures LotAdded(old(States(currentPortfolio.holdings)), old(newHolding.State()), old(currentPortfolio.holdings),
                       newHolding, States(currentPortfolio.holdings), currentPortfolio.holdings, newHolding.State())
    {
      FoldInLot(newHolding, currentPortfolio);
    }

    /** `updatePrices()`: every holding of the current portfolio takes its
        ticker's fetched price, and nothing else changes. */
    method UpdatePrices(completionOrder: seq<nat>)
      requires CompletionOrder(completionOrder, |currentPortfolio.holdings|)
      modifies currentPortfolio.holdings
      ensures portfolioList == old(portfolioList) && currentPortfolio == old(currentPortfolio)
      ensures currentPortfolio.holdings == old(currentPortfolio.holdings)
      ensures States(currentPortfolio.holdings) == Refreshed(old(States(currentPortfolio.holdings)), service.sharePrice)
    {
      RefreshPrices(currentPortfolio, service.sharePrice, completionOrder);
    }
  }
}
