/**
 * The rules by which portfolios change (ViewModels/StonkManager.swift):
 * folding a new lot into a portfolio, refreshing prices, and refreshing one
 * holding's descriptive and market data.
 *
 * Each rule is given twice: as a function on holding states, which the
 * lemmas below reason about, and as a method of `StonkManager` that
 * performs it in place on the `Holding` and `Portfolio` objects and whose
 * postcondition ties the new state to that function.
 */
module Manager {
  import opened Wrappers
  import opened Holdings
  import opened Portfolios
  import opened Service

  /** `holdings.first(where: { $0 == newHolding })` as an index:
      holdings compare equal when their tickers do. */
  function FirstMatch(hs: seq<HoldingState>, ticker: string): (r: Option<nat>)
    ensures r.None? <==> forall i | 0 <= i < |hs| :: hs[i].ticker != ticker
    ensures r.Some? ==>
      && r.value < |hs| && hs[r.value].ticker == ticker
      && forall i | 0 <= i < r.value :: hs[i].ticker != ticker
  {
    if hs == [] then None
    else if hs[0].ticker == ticker then Some(0)
    else match FirstMatch(hs[1..], ticker)
      case None => None
      case Some(k) => Some(k + 1)
  }

  /** The share-weighted average of two lots' prices. */
  function MergedAveragePrice(n1: real, p1: real, n2: real, p2: real): (r: real)
    requires n1 + n2 != 0.0
    ensures (n1 + n2) * r == n1 * p1 + n2 * p2
  {
    (n1 * p1 + n2 * p2) / (n1 + n2)
  }

  /** An existing holding after a lot of the same ticker is folded into it;
      the average is computed from the share count before the update. */
  function MergeLot(existing: HoldingState, lot: HoldingState): HoldingState
    requires existing.numShares + lot.numShares != 0.0
  {
    existing.(
      averagePrice := MergedAveragePrice(existing.numShares, existing.averagePrice,
                                         lot.numShares, lot.averagePrice),
      numShares := existing.numShares + lot.numShares)
  }

  /** The merge adds the lot's shares and its cost, and touches nothing but
      the share count and the average price. */
  lemma MergeLotConservesCost(existing: HoldingState, lot: HoldingState)
    requires existing.numShares + lot.numShares != 0.0
    ensures MergeLot(existing, lot).numShares == existing.numShares + lot.numShares
    ensures MergeLot(existing, lot).CostBasis() == existing.CostBasis() + lot.CostBasis()
    ensures MergeLot(existing, lot) ==
      existing.(averagePrice := MergeLot(existing, lot).averagePrice,
                numShares := existing.numShares + lot.numShares)
  {
  }

  /** For lots of non-negative size the merged average lies between the two
      prices. */
  lemma MergedAverageBetween(n1: real, p1: real, n2: real, p2: real)
    requires n1 >= 0.0 && n2 >= 0.0 && n1 + n2 > 0.0
    ensures p1 <= p2 ==> p1 <= MergedAveragePrice(n1, p1, n2, p2) <= p2
    ensures p2 <= p1 ==> p2 <= MergedAveragePrice(n1, p1, n2, p2) <= p1
  {
    var r := MergedAveragePrice(n1, p1, n2, p2);
    assert (n1 + n2) * (r - p1) == n2 * (p2 - p1);
    assert (n1 + n2) * (p2 - r) == n1 * (p2 - p1);
    if p1 <= p2 {
      NonNegativeProduct(n2, p2 - p1);
      NonNegativeProduct(n1, p2 - p1);
    } else {
      NonNegativeProduct(n2, p1 - p2);
      NonNegativeProduct(n1, p1 - p2);
    }
    NonNegativeFactor(n1 + n2, r - p1);
    NonNegativeFactor(n1 + n2, p1 - r);
    NonNegativeFactor(n1 + n2, r - p2);
    NonNegativeFactor(n1 + n2, p2 - r);
  }

  lemma NonNegativeProduct(a: real, b: real)
    requires a >= 0.0 && b >= 0.0
    ensures a * b >= 0.0
  {
  }

  lemma NonNegativeFactor(a: real, x: real)
    requires a > 0.0
    ensures a * x >= 0.0 ==> x >= 0.0
  {
    if x < 0.0 {
      assert a * x < 0.0;
    }
  }

  /** The merge divisor `n1 + n2` is non-zero when a merge happens. */
  predicate CanMerge(hs: seq<HoldingState>, lot: HoldingState) {
    match FirstMatch(hs, lot.ticker)
    case None => true
    case Some(k) => hs[k].numShares + lot.numShares != 0.0
  }

  /** `addHolding` on values: append a new ticker, fold a known one into
      its first holding. */
  function AddLot(hs: seq<HoldingState>, lot: HoldingState): seq<HoldingState>
    requires CanMerge(hs, lot)
  {
    match FirstMatch(hs, lot.ticker)
    case None => hs + [lot]
    case Some(k) => hs[k := MergeLot(hs[k], lot)]
  }

  /** A new ticker is appended at the end, leaving the earlier entries as
      they were; a known ticker leaves the length unchanged and changes only
      its first holding. */
  lemma AddLotShape(hs: seq<HoldingState>, lot: HoldingState)
    requires CanMerge(hs, lot)
    ensures FirstMatch(hs, lot.ticker).None? ==>
      |AddLot(hs, lot)| == |hs| + 1 && AddLot(hs, lot)[..|hs|] == hs && AddLot(hs, lot)[|hs|] == lot
    ensures FirstMatch(hs, lot.ticker).Some? ==>
      var k := FirstMatch(hs, lot.ticker).value;
      && |AddLot(hs, lot)| == |hs|
      && AddLot(hs, lot)[k] == MergeLot(hs[k], lot)
      && forall i | 0 <= i < |hs| && i != k :: AddLot(hs, lot)[i] == hs[i]
  {
  }

  /** Adding a lot never creates a second entry for a ticker. */
  lemma AddLotKeepsTickersUnique(hs: seq<HoldingState>, lot: HoldingState)
    requires CanMerge(hs, lot)
    requires UniqueTickers(hs)
    ensures UniqueTickers(AddLot(hs, lot))
  {
    var r := AddLot(hs, lot);
    if FirstMatch(hs, lot.ticker).None? {
      assert forall i | 0 <= i < |hs| :: r[i] == hs[i];
      assert r[|hs|] == lot;
    } else {
      var k := FirstMatch(hs, lot.ticker).value;
      assert forall i | 0 <= i < |hs| :: r[i].ticker == hs[i].ticker;
    }
  }

  /** Adding a lot raises the portfolio's summed cost basis by exactly the
      lot's cost, whether the lot is appended or merged. */
  lemma AddLotConservesCostBasis(hs: seq<HoldingState>, lot: HoldingState)
    requires CanMerge(hs, lot)
    ensures Sum(AddLot(hs, lot), CostBasisOf) == Sum(hs, CostBasisOf) + lot.CostBasis()
  {
    match FirstMatch(hs, lot.ticker)
    case None =>
      SumAppend(hs, [lot], CostBasisOf);
      assert Sum([lot], CostBasisOf) == Sum([], CostBasisOf) + lot.CostBasis();
    case Some(k) =>
      SumUpdate(hs, k, MergeLot(hs[k], lot), CostBasisOf);
      MergeLotConservesCost(hs[k], lot);
  }

  /** The merge divisor can be zero on inputs the app produces: the add
      sheet turns an unparsable share count into 0, so adding two 0-share
      lots of one ticker, or a lot that cancels the existing shares, reaches
      `0 / 0` (or `x / 0`).  Such a second lot is outside `CanMerge`. */
  lemma ZeroShareLotsCannotMerge(first: HoldingState, second: HoldingState)
    requires second.ticker == first.ticker && first.numShares + second.numShares == 0.0
    ensures CanMerge([], first) && !CanMerge(AddLot([], first), second)
  {
    assert AddLot([], first) == [first];
  }

  /** Adding (AAPL, 10 @ 100) and then (AAPL, 10 @ 200) to an empty
      portfolio leaves one holding of 20 shares at 150, and (5 @ 100)
      followed by (15 @ 300) gives 20 shares at 250. */
  lemma MergeExamples()
    ensures
      var first := NewHoldingState("AAPL", 10.0, 0.0, 100.0);
      var second := NewHoldingState("AAPL", 10.0, 0.0, 200.0);
      AddLot(AddLot([], first), second) == [first.(numShares := 20.0, averagePrice := 150.0)]
    ensures
      var first := NewHoldingState("AAPL", 5.0, 0.0, 100.0);
      var second := NewHoldingState("AAPL", 15.0, 0.0, 300.0);
      AddLot(AddLot([], first), second) == [first.(numShares := 20.0, averagePrice := 250.0)]
  {
    var first := NewHoldingState("AAPL", 10.0, 0.0, 100.0);
    assert AddLot([], first) == [first];
    var third := NewHoldingState("AAPL", 5.0, 0.0, 100.0);
    assert AddLot([], third) == [third];
  }

  /** `updatePrices` on values: every holding takes the fetched price of its
      ticker. */
  function Refreshed(hs: seq<HoldingState>, price: string -> real): (r: seq<HoldingState>)
    ensures |r| == |hs|
    ensures forall i | 0 <= i < |hs| :: r[i] == hs[i].(lastPrice := price(hs[i].ticker))
  {
    if hs == [] then []
    else
      var last := hs[|hs| - 1];
      Refreshed(hs[..|hs| - 1], price) + [last.(lastPrice := price(last.ticker))]
  }

  /** A second refresh against the same prices changes nothing. */
  lemma RefreshIdempotent(hs: seq<HoldingState>, price: string -> real)
    ensures Refreshed(Refreshed(hs, price), price) == Refreshed(hs, price)
  {
  }

  /** A refresh keeps tickers, share counts and average prices, so it keeps
      the one-entry-per-ticker rule and the summed cost basis. */
  lemma RefreshKeepsTickersUnique(hs: seq<HoldingState>, price: string -> real)
    requires UniqueTickers(hs)
    ensures UniqueTickers(Refreshed(hs, price))
  {
  }

  lemma {:induction false} RefreshKeepsCostBasis(hs: seq<HoldingState>, price: string -> real)
    ensures Sum(Refreshed(hs, price), CostBasisOf) == Sum(hs, CostBasisOf)
    decreases |hs|
  {
    if hs != [] {
      var init := hs[..|hs| - 1];
      RefreshKeepsCostBasis(init, price);
    }
  }

  /** The value of a refreshed holding: its share count at the fetched price. */
  function ValueAt(price: string -> real): HoldingState -> real {
    (h: HoldingState) => h.numShares * price(h.ticker)
  }

  /** After a refresh the total value is each share count times its ticker's
      fetched price. */
  lemma {:induction false} RefreshedTotalValue(hs: seq<HoldingState>, price: string -> real)
    ensures Sum(Refreshed(hs, price), TotalPriceOf) == Sum(hs, ValueAt(price))
    decreases |hs|
  {
    if hs != [] {
      var init := hs[..|hs| - 1];
      RefreshedTotalValue(init, price);
      var r := Refreshed(hs, price);
      assert r[..|hs| - 1] == Refreshed(init, price);
    }
  }

  /** `updateHoldingDetails` on values, for a response that came back:
      every descriptive and market field takes the response's value, an
      absent one clearing it. */
  function WithDetails(s: HoldingState, r: HoldingDetailsResponse): HoldingState {
    s.(name := r.name, desc := r.description, sector := r.sector, website := r.website,
       marketCap := r.marketCap, peRatio := r.peRatio, dividendYield := r.dividendYield,
       beta := r.beta, fiftyTwoWeekHigh := r.fiftyTwoWeekHigh,
       fiftyTwoWeekLow := r.fiftyTwoWeekLow, previousClose := r.previousClose,
       averageVolume := r.averageVolume, industry := r.industry, country := r.country,
       employees := r.employees)
  }

  /** A details refresh leaves the position and its gains alone, is
      idempotent, and commutes with a price write to the same holding, so
      the two refreshes may interleave in either order. */
  lemma DetailsKeepPosition(s: HoldingState, r: HoldingDetailsResponse, price: real)
    ensures WithDetails(s, r).ticker == s.ticker && WithDetails(s, r).numShares == s.numShares
    ensures WithDetails(s, r).averagePrice == s.averagePrice && WithDetails(s, r).lastPrice == s.lastPrice
    ensures WithDetails(s, r).Gains() == s.Gains()
    ensures WithDetails(WithDetails(s, r), r) == WithDetails(s, r)
    ensures WithDetails(s.(lastPrice := price), r) == WithDetails(s, r).(lastPrice := price)
  {
    assert WithDetails(s, r).TotalPrice() == s.TotalPrice();
    assert WithDetails(s, r).CostBasis() == s.CostBasis();
  }

  /** A ticker as the add-holding form produces it: upper-cased. */
  predicate IsUpperCase(s: string) {
    forall i | 0 <= i < |s| :: !('a' <= s[i] <= 'z')
  }

  predicate TickersUpperCase(hs: seq<HoldingState>) {
    forall i | 0 <= i < |hs| :: IsUpperCase(hs[i].ticker)
  }

  /** A completion order of the refresh tasks: every holding's task
      completes, each at one or more positions. */
  predicate CompletionOrder(order: seq<nat>, n: nat) {
    && (forall k | 0 <= k < |order| :: order[k] < n)
    && (forall i | 0 <= i < n :: i in order)
  }

  /** What adding a lot leaves behind, in terms of the holding states and
      holding objects of the portfolio before (`before`, `objects`) and after
      (`after`, `afterObjects`), and the state `newState` of the lot's own
      object afterwards.  A new ticker is appended as the same object, no
      state changing.  A known ticker keeps the list of objects; its first
      holding takes the merged state, no distinct object changes, and the
      lot's object keeps its state unless it is that holding.  When tickers
      were unique the new states are exactly `AddLot` of the old ones, so
      they stay unique; upper-case tickers stay upper-case. */
  predicate LotAdded(before: seq<HoldingState>, lot: HoldingState, objects: seq<Holding>, newHolding: Holding,
                     after: seq<HoldingState>, afterObjects: seq<Holding>, newState: HoldingState)
  {
    && |before| == |objects|
    && |after| == |afterObjects|
    && CanMerge(before, lot)
    && (FirstMatch(before, lot.ticker).None? ==>
          afterObjects == objects + [newHolding] && after == before + [lot] && newState == lot)
    && (FirstMatch(before, lot.ticker).Some? ==>
          var k := FirstMatch(before, lot.ticker).value;
          && afterObjects == objects
          && after[k] == MergeLot(before[k], lot)
          && (forall i | 0 <= i < |before| && objects[i] != objects[k] :: after[i] == before[i])
          && (newHolding != objects[k] ==> newState == lot))
    && (UniqueTickers(before) ==> after == AddLot(before, lot) && UniqueTickers(after))
    && (TickersUpperCase(before) ==> TickersUpperCase(after))
  }

  /** The append path on states. */
  lemma AppendValue(before: seq<HoldingState>, lot: HoldingState, objects: seq<Holding>, newHolding: Holding)
    requires |before| == |objects|
    requires FirstMatch(before, lot.ticker).None?
    requires IsUpperCase(lot.ticker)
    ensures LotAdded(before, lot, objects, newHolding, before + [lot], objects + [newHolding], lot)
  {
    if UniqueTickers(before) {
      AddLotKeepsTickersUnique(before, lot);
    }
  }

  /** The merge path on states: entry `k` and the entries of the same
      object took the merged state, and no other entry changed. */
  lemma MergeValue(before: seq<HoldingState>, lot: HoldingState, objects: seq<Holding>, newHolding: Holding,
                   k: nat, after: seq<HoldingState>, newState: HoldingState)
    requires |before| == |objects| == |after|
    requires FirstMatch(before, lot.ticker) == Some(k)
    requires CanMerge(before, lot)
    requires after[k] == MergeLot(before[k], lot)
    requires forall i | 0 <= i < |before| && objects[i] != objects[k] :: after[i] == before[i]
    requires forall i | 0 <= i < |before| && objects[i] == objects[k] :: before[i] == before[k] && after[i] == after[k]
    requires newHolding != objects[k] ==> newState == lot
    ensures LotAdded(before, lot, objects, newHolding, after, objects, newState)
  {
    MergeKeepsTickers(before, lot, objects, k, after);
    if UniqueTickers(before) {
      MergeTouchesOnlyK(before, lot, objects, k, after);
      AddLotKeepsTickersUnique(before, lot);
    }
  }

  lemma MergeKeepsTickers(before: seq<HoldingState>, lot: HoldingState, objects: seq<Holding>,
                          k: nat, after: seq<HoldingState>)
    requires |before| == |objects| == |after| && k < |before|
    requires before[k].numShares + lot.numShares != 0.0
    requires after[k] == MergeLot(before[k], lot)
    requires forall i | 0 <= i < |before| && objects[i] != objects[k] :: after[i] == before[i]
    requires forall i | 0 <= i < |before| && objects[i] == objects[k] :: before[i] == before[k] && after[i] == after[k]
    ensures forall i | 0 <= i < |before| :: after[i].ticker == before[i].ticker
    ensures TickersUpperCase(before) ==> TickersUpperCase(after)
  {
  }

  lemma MergeTouchesOnlyK(before: seq<HoldingState>, lot: HoldingState, objects: seq<Holding>,
                          k: nat, after: seq<HoldingState>)
    requires |before| == |objects| == |after| && k < |before|
    requires UniqueTickers(before)
    requires before[k].numShares + lot.numShares != 0.0
    requires after[k] == MergeLot(before[k], lot)
    requires forall i | 0 <= i < |before| && objects[i] != objects[k] :: after[i] == before[i]
    requires forall i | 0 <= i < |before| && objects[i] == objects[k] :: before[i] == before[k]
    ensures after == before[k := MergeLot(before[k], lot)]
  {
    assert forall i | 0 <= i < |before| && i != k :: objects[i] != objects[k];
  }

  /** The append-or-merge rule performed in place, as both `addHolding`s
      perform it. */
  method FoldInLot(newHolding: Holding, portfolio: Portfolio)
    requires IsUpperCase(newHolding.ticker)
    requires CanMerge(States(portfolio.holdings), newHolding.State())
    modifies portfolio, portfolio.holdings
    ensures portfolio.name == old(portfolio.name)
    ensures LotAdded(old(States(portfolio.holdings)), old(newHolding.State()), old(portfolio.holdings), newHolding,
                     States(portfolio.holdings), portfolio.holdings, newHolding.State())
  {
    var found := FirstMatch(States(portfolio.holdings), newHolding.ticker);
    if found.None? {
      AppendLot(newHolding, portfolio);
    } else {
      MergeLotAt(found.value, newHolding, portfolio);
    }
  }

  /** The append path: the new holding goes at the end, no holding changes. */
  method AppendLot(newHolding: Holding, portfolio: Portfolio)
    requires IsUpperCase(newHolding.ticker)
    requires FirstMatch(States(portfolio.holdings), newHolding.ticker).None?
    modifies portfolio`holdings
    ensures LotAdded(old(States(portfolio.holdings)), old(newHolding.State()), old(portfolio.holdings), newHolding,
                     States(portfolio.holdings), portfolio.holdings, newHolding.State())
  {
    ghost var before := States(portfolio.holdings);
    ghost var objects := portfolio.holdings;
    portfolio.holdings := portfolio.holdings + [newHolding];
    assert States(portfolio.holdings) == before + [newHolding.State()];
    AppendValue(before, newHolding.State(), objects, newHolding);
  }

  /** The merge path: the lot is folded into the holding at index `k`,
      the first with its ticker; no other holding changes. */
  method MergeLotAt(k: nat, newHolding: Holding, portfolio: Portfolio)
    requires FirstMatch(States(portfolio.holdings), newHolding.ticker) == Some(k)
    requires CanMerge(States(portfolio.holdings), newHolding.State())
    modifies portfolio.holdings[k]
    ensures LotAdded(old(States(portfolio.holdings)), old(newHolding.State()), old(portfolio.holdings), newHolding,
                     States(portfolio.holdings), portfolio.holdings, newHolding.State())
  {
    ghost var before := States(portfolio.holdings);
    ghost var lot := newHolding.State();
    var holding := portfolio.holdings[k];
    FoldLotInto(holding, newHolding);
    MergeValue(before, lot, portfolio.holdings, newHolding, k, States(portfolio.holdings), newHolding.State());
  }

  /** The two assignments of the merge path: the average price from the
      share counts before the update, then the share count. */
  method FoldLotInto(holding: Holding, newHolding: Holding)
    requires holding.numShares + newHolding.numShares != 0.0
    modifies holding
    ensures holding.State() == MergeLot(old(holding.State()), old(newHolding.State()))
  {
    holding.averagePrice := (holding.numShares * holding.averagePrice + newHolding.numShares * newHolding.averagePrice)
                            / (holding.numShares + newHolding.numShares);
    holding.numShares := holding.numShares + newHolding.numShares;
  }

  /** The task group of both `updatePrices`: one task per holding, each
      writing the fetched price to its own holding.  The tasks run one after
      another in `completionOrder`, any order in which every task completes;
      the result does not depend on it. */
  method RefreshPrices(portfolio: Portfolio, price: string -> real, completionOrder: seq<nat>)
    requires CompletionOrder(completionOrder, |portfolio.holdings|)
    modifies portfolio.holdings
    ensures portfolio.holdings == old(portfolio.holdings)
    ensures States(portfolio.holdings) == Refreshed(old(States(portfolio.holdings)), price)
  {
    var targets := portfolio.holdings;
    ghost var done: set<nat> := {};
    var i := 0;
    while i < |completionOrder|
      invariant 0 <= i <= |completionOrder|
      invariant forall k | 0 <= k < i :: completionOrder[k] in done
      invariant forall j | 0 <= j < |targets| ::
        targets[j].State() == old(targets[j].State()).(lastPrice := targets[j].lastPrice)
      invariant forall j | 0 <= j < |targets| && j in done ::
        targets[j].lastPrice == price(targets[j].ticker)
    {
      RunTask(targets, completionOrder[i], price);
      done := done + {completionOrder[i]};
      i := i + 1;
    }
    forall j | 0 <= j < |targets|
      ensures j in done
    {
      assert j in completionOrder;
      var k :| 0 <= k < |completionOrder| && completionOrder[k] == j;
    }
  }

  /** One task: fetch the price of holding `t` and write it to that holding
      (and so to every entry that is the same object). */
  method RunTask(targets: seq<Holding>, t: nat, price: string -> real)
    requires t < |targets|
    modifies targets[t]
    ensures forall j | 0 <= j < |targets| ::
      targets[j].State() == old(targets[j].State()).(lastPrice := targets[j].lastPrice)
    ensures forall j | 0 <= j < |targets| ::
      targets[j].lastPrice == if targets[j] == targets[t] then price(targets[j].ticker) else old(targets[j].lastPrice)
  {
    var holding := targets[t];
    var fetched := price(holding.ticker);
    holding.lastPrice := fetched;
  }

  /** `StonkManager`. Its model context (used only by `addPortfolio`) is not
      modelled; the quote service is. */
  class StonkManager {
    const service: StonkService

    constructor (service: StonkService)
      ensures this.service == service
    {
      this.service := service;
    }

    /** `addHolding(_:to:)`.  `refreshRequested` stands for the detached
        `Task { await updatePrices(for: portfolio) }`, started only when the
        lot was appended. */
    method AddHolding(newHolding: Holding, portfolio: Portfolio) returns (refreshRequested: bool)
      requires IsUpperCase(newHolding.ticker)
      requires CanMerge(States(portfolio.holdings), newHolding.State())
      modifies portfolio, portfolio.holdings
      ensures portfolio.name == old(portfolio.name)
      ensures LotAdded(old(States(portfolio.holdings)), old(newHolding.State()), old(portfolio.holdings), newHolding,
                       States(portfolio.holdings), portfolio.holdings, newHolding.State())
      ensures refreshRequested <==> FirstMatch(old(States(portfolio.holdings)), old(newHolding.ticker)).None?
    {
      refreshRequested := FirstMatch(States(portfolio.holdings), newHolding.ticker).None?;
      FoldInLot(newHolding, portfolio);
    }

    /** `updatePrices(for:)`: every holding takes its ticker's fetched
        price, and nothing else changes. */
    method UpdatePrices(portfolio: Portfolio, completionOrder: seq<nat>)
      requires CompletionOrder(completionOrder, |portfolio.holdings|)
      modifies portfolio.holdings
      ensures portfolio.holdings == old(portfolio.holdings)
      ensures States(portfolio.holdings) == Refreshed(old(States(portfolio.holdings)), service.sharePrice)
    {
      RefreshPrices(portfolio, service.sharePrice, completionOrder);
    }

    /** `updateHoldingDetails(for:)`: overwrite all fifteen fields from the
        response, or leave the holding untouched when none came back. */
    method UpdateHoldingDetails(holding: Holding)
      modifies holding
      ensures holding.State() ==
        match service.holdingDetails(old(holding.ticker))
        case None => old(holding.State())
        case Some(r) => WithDetails(old(holding.State()), r)
    {
      var response := service.holdingDetails(holding.ticker);
      if response.None? {
        return;
      }
      var r := response.value;
      WriteCompanyFields(holding, r);
      WriteValuationFields(holding, r);
      WriteTradingFields(holding, r);
    }
  }

  // The fifteen assignments of `updateHoldingDetails`, in source order, in
  // three groups.

  method WriteCompanyFields(holding: Holding, r: HoldingDetailsResponse)
    modifies holding
    ensures holding.State() == old(holding.State()).(
      name := r.name, desc := r.description, sector := r.sector, website := r.website,
      marketCap := r.marketCap)
  {
    holding.name := r.name;
    holding.desc := r.description;
    holding.sector := r.sector;
    holding.website := r.website;
    holding.marketCap := r.marketCap;
  }

  method WriteValuationFields(holding: Holding, r: HoldingDetailsResponse)
    modifies holding
    ensures holding.State() == old(holding.State()).(
      peRatio := r.peRatio, dividendYield := r.dividendYield, beta := r.beta,
      fiftyTwoWeekHigh := r.fiftyTwoWeekHigh, fiftyTwoWeekLow := r.fiftyTwoWeekLow)
  {
    holding.peRatio := r.peRatio;
    holding.dividendYield := r.dividendYield;
    holding.beta := r.beta;
    holding.fiftyTwoWeekHigh := r.fiftyTwoWeekHigh;
    holding.fiftyTwoWeekLow := r.fiftyTwoWeekLow;
  }

  method WriteTradingFields(holding: Holding, r: HoldingDetailsResponse)
    modifies holding
    ensures holding.State() == old(holding.State()).(
      previousClose := r.previousClose, averageVolume := r.averageVolume, industry := r.industry,
      country := r.country, employees := r.employees)
  {
    holding.previousClose := r.previousClose;
    holding.averageVolume := r.averageVolume;
    holding.industry := r.industry;
    holding.country := r.country;
    holding.employees := r.employees;
  }
}
