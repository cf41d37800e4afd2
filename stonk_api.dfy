/**
 * The quote server (StonkAPI/main.py): the translation of a chart period
 * into the market-data library's period and interval, the reshaping of
 * history rows into the JSON records the app decodes, and the renaming of
 * the library's info dictionary into the app's details response.  The
 * library calls themselves are inputs.
 */
module StonkApi {
  import opened Wrappers
  import PriceHistory
  import Service

  /** A market-data request: how far back, and at what bar interval. */
  datatype YfRequest = YfRequest(period: string, interval: string)

  /** `period_map`. */
  const PeriodMap: map<string, YfRequest> := map[
    "1d" := YfRequest("1d", "15m"),
    "1w" := YfRequest("5d", "1d"),
    "1mo" := YfRequest("1mo", "1d"),
    "1y" := YfRequest("1y", "1wk"),
    "5y" := YfRequest("5y", "1mo")
  ]

  /** The request used for a period `period_map` does not know. */
  const Fallback: YfRequest := YfRequest("1mo", "1d")

  /** The `period` query parameter when the client sends none. */
  const DefaultPeriod: string := "1mo"

  /** `period_map.get(period, ("1mo", "1d"))`. */
  function YfParameters(period: string): YfRequest {
    if period in PeriodMap then PeriodMap[period] else Fallback
  }

  /** Every period the app can ask for is known to the server, so the
      fallback is never reached from the app, and each maps as tabled. */
  lemma ClientPeriodsKnown(p: PriceHistory.ChartPeriod)
    ensures p.RawValue() in PeriodMap
    ensures YfParameters(PriceHistory.ChartPeriod.OneDay.RawValue()) == YfRequest("1d", "15m")
    ensures YfParameters(PriceHistory.ChartPeriod.OneWeek.RawValue()) == YfRequest("5d", "1d")
    ensures YfParameters(PriceHistory.ChartPeriod.OneMonth.RawValue()) == YfRequest("1mo", "1d")
    ensures YfParameters(PriceHistory.ChartPeriod.OneYear.RawValue()) == YfRequest("1y", "1wk")
    ensures YfParameters(PriceHistory.ChartPeriod.FiveYears.RawValue()) == YfRequest("5y", "1mo")
  {
  }

  /** The server knows exactly the app's raw values, and the default
      period asks for the same data as an unknown one. */
  lemma PeriodKeysAreRawValues(s: string)
    ensures s in PeriodMap <==> PriceHistory.FromRawValue(s).Some?
    ensures PriceHistory.FromRawValue(s).None? ==> YfParameters(s) == Fallback
    ensures YfParameters(DefaultPeriod) == Fallback
  {
  }

  /** A row of the library's history frame: its timestamp index and its
      closing price. */
  datatype HistoryRow<T> = HistoryRow(date: T, close: real)

  /** The `{"date": ..., "close": ...}` record, as `PricePointResponse`
      decodes it. */
  datatype PointRecord = PointRecord(date: string, close: real)

  /** The loop of `getHistory`: one record per row, in row order, with the
      timestamp in ISO 8601 form (`isoformat` stands for
      `Timestamp.isoformat`). */
  method ReshapeHistory<T>(rows: seq<HistoryRow<T>>, isoformat: T -> string) returns (data: seq<PointRecord>)
    ensures |data| == |rows|
    ensures forall i | 0 <= i < |rows| :: data[i] == PointRecord(isoformat(rows[i].date), rows[i].close)
  {
    data := [];
    var k := 0;
    while k < |rows|
      invariant 0 <= k <= |rows|
      invariant |data| == k
      invariant forall i | 0 <= i < k :: data[i] == PointRecord(isoformat(rows[i].date), rows[i].close)
    {
      var row := rows[k];
      data := data + [PointRecord(isoformat(row.date), row.close)];
      k := k + 1;
    }
  }

  /** For each key of the details response, the key of the library's info
      dictionary it is read from. */
  const InfoSources: map<string, string> := map[
    "name" := "longName",
    "description" := "longBusinessSummary",
    "sector" := "sector",
    "website" := "website",
    "marketCap" := "marketCap",
    "peRatio" := "trailingPE",
    "dividendYield" := "dividendYield",
    "beta" := "beta",
    "fiftyTwoWeekHigh" := "fiftyTwoWeekHigh",
    "fiftyTwoWeekLow" := "fiftyTwoWeekLow",
    "previousClose" := "previousClose",
    "averageVolume" := "averageVolume",
    "industry" := "industry",
    "country" := "country",
    "employees" := "fullTimeEmployees"
  ]

  /** `getInfo`: every response key is present, holding `info.get` of its
      source key, `None` when the library did not supply it. */
  function Info<V>(info: map<string, V>): (r: map<string, Option<V>>)
    ensures r.Keys == InfoSources.Keys
    ensures forall k | k in r :: r[k].None? <==> InfoSources[k] !in info
    ensures forall k | k in r && r[k].Some? :: r[k].value == info[InfoSources[k]]
  {
    map k | k in InfoSources :: if InfoSources[k] in info then Some(info[InfoSources[k]]) else None
  }

  /** The response always has exactly the keys the app decodes. */
  lemma InfoKeysMatchClient<V>(info: map<string, V>)
    ensures Info(info).Keys == Service.ResponseKeys
  {
    assert InfoSources.Keys == Service.ResponseKeys;
  }

  /** Four response keys are read from differently named library keys, the
      rest from keys of the same name. */
  lemma InfoRenamings()
    ensures InfoSources["name"] == "longName" && InfoSources["description"] == "longBusinessSummary"
    ensures InfoSources["peRatio"] == "trailingPE" && InfoSources["employees"] == "fullTimeEmployees"
    ensures forall k | k in InfoSources && k !in {"name", "description", "peRatio", "employees"} :: InfoSources[k] == k
  {
  }
}
