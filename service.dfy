/**
 * The quote service as the rest of the app sees it (Service/StonkService.swift).
 * The HTTP requests and JSON decoding are not modelled: a fetch is a
 * function of the ticker that already includes the collapse of every
 * failure into 0 (price) or an absent response (details).
 */
module Service {
  import opened Wrappers

  /** `HoldingDetailsResponse`: every field independently optional. */
  datatype HoldingDetailsResponse = HoldingDetailsResponse(
    name: Option<string>,
    description: Option<string>,
    sector: Option<string>,
    website: Option<string>,
    marketCap: Option<real>,
    peRatio: Option<real>,
    dividendYield: Option<real>,
    beta: Option<real>,
    fiftyTwoWeekHigh: Option<real>,
    fiftyTwoWeekLow: Option<real>,
    previousClose: Option<real>,
    averageVolume: Option<int>,
    industry: Option<string>,
    country: Option<string>,
    employees: Option<int>)

  /** The JSON keys `HoldingDetailsResponse` decodes, one per field. */
  const ResponseKeys: set<string> := {
    "name", "description", "sector", "website",
    "marketCap", "peRatio", "dividendYield", "beta",
    "fiftyTwoWeekHigh", "fiftyTwoWeekLow", "previousClose", "averageVolume",
    "industry", "country", "employees"
  }

  /** `StonkService`: `getSharePrice` gives 0 on any failure,
      `getHoldingDetails` gives `None`. */
  datatype StonkService = StonkService(
    sharePrice: string -> real,
    holdingDetails: string -> Option<HoldingDetailsResponse>)
}
