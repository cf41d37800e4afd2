/**
 * The interactive price chart of a holding's detail screen
 * (Views/HoldingDetail/PriceChartView.swift): the figures derived from the
 * loaded history and the optional selected point, the choice of the point
 * nearest a dragged-to date, and the loading of a period's history.
 */
module PriceChart {
  import opened Wrappers
  import opened PriceHistory

  /** `displayPrice`: the selected point's close, else the last close,
      else 0. */
  function DisplayPrice(history: seq<PricePoint>, selected: Option<PricePoint>): real {
    match selected
    case Some(p) => p.close
    case None => if history == [] then 0.0 else history[|history| - 1].close
  }

  /** A period change: the change in price and, when the first close is
      non-zero, that change as a percentage of it. */
  datatype Change = Change(value: real, percent: Option<real>)

  /** `periodChange`. */
  function PeriodChange(history: seq<PricePoint>, selected: Option<PricePoint>): Option<Change> {
    if history == [] then None
    else
      var first := history[0];
      var current := match selected
        case Some(p) => p.close
        case None => history[|history| - 1].close;
      var change := current - first.close;
      Some(Change(change, if first.close == 0.0 then None else Some(change / first.close * 100.0)))
  }

  /** There is a change exactly when there is a history; it runs from the
      first close to the displayed price, and its percentage is relative to
      the first close. */
  lemma PeriodChangeFromFirst(history: seq<PricePoint>, selected: Option<PricePoint>)
    ensures PeriodChange(history, selected).None? <==> history == []
    ensures history != [] ==>
      var c := PeriodChange(history, selected).value;
      && c.value == DisplayPrice(history, selected) - history[0].close
      && (c.percent.None? <==> history[0].close == 0.0)
      && (c.percent.Some? ==> c.percent.value * history[0].close == c.value * 100.0)
  {
  }

  datatype Color = Gray | Green | Red

  /** `chartColor`. */
  function ChartColor(history: seq<PricePoint>, selected: Option<PricePoint>): Color {
    match PeriodChange(history, selected)
    case None => Gray
    case Some(c) => if c.value >= 0.0 then Green else Red
  }

  /** Gray exactly without a history; otherwise green exactly when the
      displayed price is at least the first close. */
  lemma ChartColorMeaning(history: seq<PricePoint>, selected: Option<PricePoint>)
    ensures ChartColor(history, selected) == Gray <==> history == []
    ensures ChartColor(history, selected) == Green <==>
      history != [] && DisplayPrice(history, selected) >= history[0].close
    ensures ChartColor(history, selected) == Red <==>
      history != [] && DisplayPrice(history, selected) < history[0].close
  {
    PeriodChangeFromFirst(history, selected);
  }

  /** `map(\.close).min()` of a non-empty history. */
  function MinClose(history: seq<PricePoint>): (m: real)
    requires history != []
    ensures forall i | 0 <= i < |history| :: m <= history[i].close
    ensures exists i | 0 <= i < |history| :: m == history[i].close
  {
    if |history| == 1 then history[0].close
    else
      var rest := MinClose(history[..|history| - 1]);
      var last := history[|history| - 1].close;
      if last < rest then last else rest
  }

  /** `map(\.close).max()` of a non-empty history. */
  function MaxClose(history: seq<PricePoint>): (m: real)
    requires history != []
    ensures forall i | 0 <= i < |history| :: history[i].close <= m
    ensures exists i | 0 <= i < |history| :: m == history[i].close
  {
    if |history| == 1 then history[0].close
    else
      var rest := MaxClose(history[..|history| - 1]);
      var last := history[|history| - 1].close;
      if last > rest then last else rest
  }

  datatype Range = Range(lower: real, upper: real)

  /** `priceRange`: the closes' span widened by a tenth of it on either side,
      or 0...100 without a history. */
  function PriceRange(history: seq<PricePoint>): (r: Range)
    ensures history == [] ==> r == Range(0.0, 100.0)
    ensures history != [] ==>
      && r.lower == MinClose(history) - (MaxClose(history) - MinClose(history)) * 0.1
      && r.upper == MaxClose(history) + (MaxClose(history) - MinClose(history)) * 0.1
    ensures r.lower <= r.upper
    ensures forall i | 0 <= i < |history| :: r.lower <= history[i].close <= r.upper
  {
    if history == [] then Range(0.0, 100.0)
    else
      var minPrice, maxPrice := MinClose(history), MaxClose(history);
      var padding := (maxPrice - minPrice) * 0.1;
      Range(minPrice - padding, maxPrice + padding)
  }

  /** `chartBaseline`: the lowest close, or 0 without a history; the area
      under the line never starts above a point. */
  function ChartBaseline(history: seq<PricePoint>): (b: real)
    ensures history == [] ==> b == 0.0
    ensures history != [] ==> exists i | 0 <= i < |history| :: b == history[i].close
    ensures forall i | 0 <= i < |history| :: b <= history[i].close
  {
    if history == [] then 0.0 else MinClose(history)
  }

  /** The baseline lies inside the displayed range. */
  lemma BaselineInRange(history: seq<PricePoint>)
    ensures PriceRange(history).lower <= ChartBaseline(history) <= PriceRange(history).upper
  {
  }

  function Abs(x: real): real {
    if x < 0.0 then -x else x
  }

  /** `abs(point.date.timeIntervalSince(target))`. */
  function Distance(p: PricePoint, target: real): real {
    Abs(p.date - target)
  }

  /** `history.min(by:)` on the distance to `target` as an index: `min(by:)`
      keeps its current candidate unless a later point is strictly nearer,
      so this is the first of the nearest points. */
  function NearestIndex(history: seq<PricePoint>, target: real): (k: nat)
    requires history != []
    ensures k < |history|
    ensures forall i | 0 <= i < |history| :: Distance(history[k], target) <= Distance(history[i], target)
    ensures forall i | 0 <= i < k :: Distance(history[k], target) < Distance(history[i], target)
  {
    if |history| == 1 then 0
    else
      var k := NearestIndex(history[..|history| - 1], target);
      if Distance(history[|history| - 1], target) < Distance(history[k], target) then |history| - 1 else k
  }

  /** The first nearest point is unique: any index that is nearest with all
      earlier points strictly farther is `NearestIndex`. */
  lemma NearestIndexUnique(history: seq<PricePoint>, target: real, j: nat)
    requires j < |history|
    requires forall i | 0 <= i < |history| :: Distance(history[j], target) <= Distance(history[i], target)
    requires forall i | 0 <= i < j :: Distance(history[j], target) < Distance(history[i], target)
    ensures j == NearestIndex(history, target)
  {
  }

  /** The selection `selectNearestPoint(to:)` leaves: unchanged without a
      history or when the selected point already has the nearest point's
      id, the nearest point otherwise. */
  function SelectNearest(history: seq<PricePoint>, selected: Option<PricePoint>, target: real): Option<PricePoint> {
    if history == [] then selected
    else
      var nearest := history[NearestIndex(history, target)];
      if selected.Some? && selected.value.Id() == nearest.Id() then selected else Some(nearest)
  }

  /** With a history, the selection afterwards has the date of a point of
      the history nearest `target`, so it is itself no farther than any
      point; selecting again for the same target changes nothing. */
  lemma SelectNearestMinimises(history: seq<PricePoint>, selected: Option<PricePoint>, target: real)
    ensures history == [] ==> SelectNearest(history, selected, target) == selected
    ensures history != [] ==>
      var s := SelectNearest(history, selected, target);
      && s.Some?
      && (exists k | 0 <= k < |history| :: s.value.Id() == history[k].Id())
      && forall i | 0 <= i < |history| :: Distance(s.value, target) <= Distance(history[i], target)
    ensures SelectNearest(history, SelectNearest(history, selected, target), target) ==
      SelectNearest(history, selected, target)
  {
    if history != [] {
      var k := NearestIndex(history, target);
      assert SelectNearest(history, selected, target).value.Id() == history[k].Id();
    }
  }

  /** `formattedDate(for:)`'s date pattern for each period. */
  function DatePattern(period: ChartPeriod): string {
    match period
    case OneDay => "h:mm a"
    case OneWeek | OneMonth => "MMM d"
    case OneYear => "MMM d, yyyy"
    case FiveYears => "MMM yyyy"
  }

  /** Only the two short periods share a pattern; the day view shows a time
      and the others a date. */
  lemma DatePatternChoice(p: ChartPeriod, q: ChartPeriod)
    ensures DatePattern(p) == DatePattern(q) <==> p == q || (p in {OneWeek, OneMonth} && q in {OneWeek, OneMonth})
    ensures DatePattern(OneWeek) == DatePattern(OneMonth) == "MMM d"
    ensures DatePattern(p) == "h:mm a" <==> p == OneDay
  {
  }

  /** The view's `@State`. */
  class PriceChartView {
    const ticker: string
    var priceHistory: seq<PricePoint>
    var selectedPeriod: ChartPeriod
    var selectedPoint: Option<PricePoint>
    var isLoading: bool

    /** No history, the one-month period, no selection, loading. */
    constructor (ticker: string)
      ensures this.ticker == ticker
      ensures priceHistory == [] && selectedPeriod == OneMonth && selectedPoint == None && isLoading
    {
      this.ticker := ticker;
      priceHistory := [];
      selectedPeriod := OneMonth;
      selectedPoint := None;
      isLoading := true;
    }

    /** `selectNearestPoint(to:)`, for the date the chart proxy read off the
        drag location. */
    method SelectNearestPoint(target: real)
      modifies this`selectedPoint
      ensures selectedPoint == SelectNearest(priceHistory, old(selectedPoint), target)
    {
      if priceHistory == [] {
        return;
      }
      var nearest := priceHistory[NearestIndex(priceHistory, target)];
      if !(selectedPoint.Some? && selectedPoint.value.Id() == nearest.Id()) {
        selectedPoint := Some(nearest);
      }
    }

    /** The drag gesture ends: the selection is cleared. */
    method EndDrag()
      modifies this`selectedPoint
      ensures selectedPoint == None
    {
      selectedPoint := None;
    }

    /** The first half of `loadHistory()`, up to the request: the flag is
        set, the selection cleared, and the history is requested for the
        period selected at this moment. */
    method BeginLoading() returns (requested: ChartPeriod)
      modifies this`isLoading, this`selectedPoint
      ensures isLoading && selectedPoint == None
      ensures requested == selectedPeriod
    {
      isLoading := true;
      selectedPoint := None;
      requested := selectedPeriod;
    }

    /** The second half, on the main actor: the fetched history, or none
        when the request failed. */
    method FinishLoading(fetched: Option<seq<PricePoint>>)
      modifies this`priceHistory, this`isLoading
      ensures priceHistory == (match fetched case Some(h) => h case None => [])
      ensures !isLoading
    {
      if fetched.Some? {
        priceHistory := fetched.value;
        isLoading := false;
      } else {
        priceHistory := [];
        isLoading := false;
      }
    }

    /** `loadHistory()` run with no other load interleaved at its `await`,
        `getPriceHistory` standing for the manager's request for this ticker
        and period. */
    method LoadHistory(getPriceHistory: (string, ChartPeriod) -> Option<seq<PricePoint>>)
      modifies this`priceHistory, this`isLoading, this`selectedPoint
      ensures priceHistory == (match getPriceHistory(ticker, selectedPeriod) case Some(h) => h case None => [])
      ensures !isLoading && selectedPoint == None
    {
      var requested := BeginLoading();
      var fetched := getPriceHistory(ticker, requested);
      FinishLoading(fetched);
    }

    /** A period button's action on the main actor: select the period.  The
        reload it schedules in a detached `Task` is a separate
        `LoadHistory` (or `BeginLoading` ... `FinishLoading`) step. */
    method SelectPeriod(period: ChartPeriod)
      modifies this`selectedPeriod
      ensures selectedPeriod == period
    {
      selectedPeriod := period;
    }
  }
}
