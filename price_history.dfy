/**
 * Price history points and chart periods (Models/PriceHistoryModel.swift).
 * A `Date` is its offset in seconds from a fixed reference instant.
 */
module PriceHistory {
  import opened Wrappers

  datatype PricePoint = PricePoint(date: real, close: real) {
    /** `Identifiable`: a point is identified by its date. */
    function Id(): real {
      date
    }
  }

  /** Two points with the same date are the same point for identity
      purposes, whatever their close. */
  lemma IdIsDate(p: PricePoint, q: PricePoint)
    ensures p.Id() == p.date
    ensures p.Id() == q.Id() <==> p.date == q.date
  {
  }

  datatype ChartPeriod = OneDay | OneWeek | OneMonth | OneYear | FiveYears {

    /** The raw value, as sent to the history endpoint. */
    function RawValue(): string {
      match this
      case OneDay => "1d"
      case OneWeek => "1w"
      case OneMonth => "1mo"
      case OneYear => "1y"
      case FiveYears => "5y"
    }

    function DisplayName(): string {
      match this
      case OneDay => "1D"
      case OneWeek => "1W"
      case OneMonth => "1M"
      case OneYear => "1Y"
      case FiveYears => "5Y"
    }
  }

  /** `ChartPeriod(rawValue:)`: `None` for a string that is no raw value. */
  function FromRawValue(s: string): Option<ChartPeriod> {
    if s == "1d" then Some(OneDay)
    else if s == "1w" then Some(OneWeek)
    else if s == "1mo" then Some(OneMonth)
    else if s == "1y" then Some(OneYear)
    else if s == "5y" then Some(FiveYears)
    else None
  }

  /** `ChartPeriod.allCases`, in declaration order. */
  const AllCases: seq<ChartPeriod> := [OneDay, OneWeek, OneMonth, OneYear, FiveYears]

  /** The raw values round-trip through `init(rawValue:)`, and the
      initializer accepts nothing else. */
  lemma RawValueRoundTrip(p: ChartPeriod, s: string)
    ensures FromRawValue(p.RawValue()) == Some(p)
    ensures FromRawValue(s).Some? ==> FromRawValue(s).value.RawValue() == s
    ensures FromRawValue(s).None? ==> forall q: ChartPeriod :: q.RawValue() != s
  {
  }

  /** Distinct periods have distinct raw values and distinct display names. */
  lemma DistinctNames(p: ChartPeriod, q: ChartPeriod)
    ensures p.RawValue() == q.RawValue() ==> p == q
    ensures p.DisplayName() == q.DisplayName() ==> p == q
  {
  }

  /** `allCases` lists each of the five periods exactly once. */
  lemma AllCasesComplete(p: ChartPeriod)
    ensures |AllCases| == 5
    ensures p in AllCases
    ensures forall i, j | 0 <= i < j < |AllCases| :: AllCases[i] != AllCases[j]
  {
  }
}
