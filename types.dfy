/**
 * The record shapes the frontend works with (frontend/src/types/database.ts).
 * `Transaction` also stands for the `BackendTransaction` of
 * frontend/src/lib/api.ts, which differs from it in three ways: its direction
 * is BUY/SELL rather than LONG/SHORT, its `risk_type_id` may be null (an
 * `Option` here for both), and it has none of the joined arrays
 * (`portfolios`, `cryptocurrencies`, `risk_types`), which are not modelled.
 * Timestamps and dates are the strings the API carries.
 */
module Types {
  import opened Wrappers

  datatype Portfolio = Portfolio(
    id: string,
    naziv: string,
    strategija: Option<string>,
    datumKreiranja: string,
    createdAt: string,
    updatedAt: string)

  datatype Cryptocurrency = Cryptocurrency(
    id: string,
    symbol: string,
    name: string,
    currentPrice: real,
    priceChange24h: real,
    lastUpdated: string,
    createdAt: string,
    updatedAt: string)

  datatype RiskType = RiskType(
    id: string,
    name: string,
    description: Option<string>,
    color: Option<string>,
    createdAt: string,
    updatedAt: string)

  /** A transaction with its joined portfolio, cryptocurrency and risk type.
      `tip` is "BUY"/"SELL" as the backend sends it and "LONG"/"SHORT" once
      the API layer has mapped it. */
  datatype Transaction = Transaction(
    id: string,
    portfolioId: string,
    cryptocurrencyId: string,
    tip: string,
    kolicina: real,
    cijena: real,
    datum: string,
    riskTypeId: Option<string>,
    createdAt: string,
    updatedAt: string,
    portfolio: Option<Portfolio>,
    cryptocurrency: Option<Cryptocurrency>,
    riskType: Option<RiskType>)

  /** `Array.prototype.find`, as the index of the first element satisfying
      `p` (None when there is none). */
  function FindIndex<T>(s: seq<T>, p: T -> bool): (r: Option<nat>)
    ensures r.None? <==> forall j :: 0 <= j < |s| ==> !p(s[j])
    ensures r.Some? ==> r.value < |s| && p(s[r.value]) && forall j :: 0 <= j < r.value ==> !p(s[j])
  {
    if s == [] then None
    else if p(s[0]) then Some(0)
    else match FindIndex(s[1..], p)
      case None => None
      case Some(k) => Some(k + 1)
  }
}
