/**
 * The value and profit/loss figures of
 * frontend/src/components/TransactionManager.tsx, its P/L display rule and
 * the guard on the "Add Transaction" button. `quote` stands for the live
 * price hook's `getCurrentPrice`.
 */
module TransactionManager {
  import opened Types
  import Statistics

  /** `calculateCurrentValue`: quantity at the current price, 0 without a
      cryptocurrency. */
  function CalculateCurrentValue(t: Transaction, quote: string -> real): (v: real)
    ensures t.cryptocurrency.None? ==> v == 0.0
    ensures t.cryptocurrency.Some? ==> v == t.kolicina * quote(t.cryptocurrency.value.symbol)
  {
    if t.cryptocurrency.None? then 0.0 else t.kolicina * quote(t.cryptocurrency.value.symbol)
  }

  /** `calculateProfitLoss`: current value minus entry value, 0 without a
      cryptocurrency, whatever the direction. */
  function CalculateProfitLoss(t: Transaction, quote: string -> real): (pl: real)
    ensures t.cryptocurrency.None? ==> pl == 0.0
    ensures t.cryptocurrency.Some? ==> pl == CalculateCurrentValue(t, quote) - t.kolicina * t.cijena
  {
    if t.cryptocurrency.None? then 0.0
    else CalculateCurrentValue(t, quote) - t.kolicina * t.cijena
  }

  /** The table's P/L is the Statistics P/L of a LONG, and the exact negation
      of the Statistics P/L of any other direction. */
  lemma ProfitLossVersusStatistics(t: Transaction, quote: string -> real)
    ensures t.tip == "LONG" ==> CalculateProfitLoss(t, quote) == Statistics.TradePL(t, quote)
    ensures t.tip != "LONG" ==> CalculateProfitLoss(t, quote) == -Statistics.TradePL(t, quote)
  {
    if t.cryptocurrency.Some? {
      var p := quote(t.cryptocurrency.value.symbol);
      assert t.kolicina * p - t.kolicina * t.cijena == (p - t.cijena) * t.kolicina;
    }
  }

  /** As written, a SHORT of 1 at 100 quoted at 150 shows +50 in the table
      while the statistics count it as -50. */
  lemma ShortShownAsProfit(t: Transaction, quote: string -> real)
    requires t.tip == "SHORT" && t.kolicina == 1.0 && t.cijena == 100.0
    requires t.cryptocurrency.Some? && quote(t.cryptocurrency.value.symbol) == 150.0
    ensures CalculateProfitLoss(t, quote) == 50.0
    ensures Statistics.TradePL(t, quote) == -50.0
  {
  }

  /** The direction-aware P/L the table evidently intends: the long formula
      for a LONG and its mirror for a SHORT, so that it matches the
      statistics and a short gains when the price falls. */
  function DirectionalProfitLoss(t: Transaction, quote: string -> real): (pl: real)
    ensures pl == Statistics.TradePL(t, quote)
    ensures t.tip == "LONG" ==> pl == CalculateProfitLoss(t, quote)
    ensures t.cryptocurrency.Some? && t.tip != "LONG" ==>
      pl == t.kolicina * t.cijena - CalculateCurrentValue(t, quote)
  {
    ProfitLossVersusStatistics(t, quote);
    if t.cryptocurrency.None? then 0.0
    else if t.tip == "LONG" then CalculateProfitLoss(t, quote)
    else t.kolicina * t.cijena - CalculateCurrentValue(t, quote)
  }

  /** How the table shows a P/L figure. */
  datatype PLDisplay = PLDisplay(prefix: string, profitColour: bool)

  /** The sign prefix and colour of the P/L cell. */
  function DisplayPL(pl: real): (d: PLDisplay)
    ensures d.profitColour <==> pl >= 0.0
    ensures d.prefix == "+" <==> pl >= 0.0
    ensures d.prefix == "" <==> pl < 0.0
  {
    if pl >= 0.0 then PLDisplay("+", true) else PLDisplay("", false)
  }

  /** A position that broke even is shown as a "+0" profit. */
  lemma BreakEvenShownAsProfit(t: Transaction, quote: string -> real)
    requires t.cryptocurrency.Some? && quote(t.cryptocurrency.value.symbol) == t.cijena
    ensures DisplayPL(CalculateProfitLoss(t, quote)) == PLDisplay("+", true)
  {
  }

  /** The "Add Transaction" button is disabled until there is at least one
      portfolio, one cryptocurrency and one risk type. */
  function AddTransactionDisabled(portfolios: seq<Portfolio>, cryptocurrencies: seq<Cryptocurrency>, riskTypes: seq<RiskType>): (disabled: bool)
    ensures !disabled <==> |portfolios| > 0 && |cryptocurrencies| > 0 && |riskTypes| > 0
  {
    |portfolios| == 0 || |cryptocurrencies| == 0 || |riskTypes| == 0
  }
}
