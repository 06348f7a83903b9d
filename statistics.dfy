/**
 * The trade statistics of frontend/src/components/Statistics.tsx: totals,
 * averages, long/short counts, direction-aware profit/loss, best and worst
 * trade, and the P/L-by-asset chart data. `quote` stands for the live
 * price hook's `getCurrentPrice`.
 */
module Statistics {
  import opened Wrappers
  import opened Types

  // ---------------------------------------------------------------------
  // Totals, averages and counts

  /** `totalInvested`: the sum of price times quantity. */
  function TotalInvested(txs: seq<Transaction>): (r: real)
    ensures txs == [] ==> r == 0.0
    ensures (forall i :: 0 <= i < |txs| ==> txs[i].cijena >= 0.0 && txs[i].kolicina >= 0.0) ==> r >= 0.0
  {
    if txs == [] then 0.0
    else TotalInvested(txs[..|txs| - 1]) + txs[|txs| - 1].cijena * txs[|txs| - 1].kolicina
  }

  /** The sum of the entry prices. */
  function SumEntryPrices(txs: seq<Transaction>): real
  {
    if txs == [] then 0.0 else SumEntryPrices(txs[..|txs| - 1]) + txs[|txs| - 1].cijena
  }

  /** `avgEntryPrice`: the mean entry price, 0 without trades. */
  function AvgEntryPrice(txs: seq<Transaction>): (r: real)
    ensures |txs| == 0 ==> r == 0.0
    ensures |txs| > 0 ==> r * (|txs| as real) == SumEntryPrices(txs)
  {
    if |txs| > 0 then SumEntryPrices(txs) / (|txs| as real) else 0.0
  }

  /** With every trade's price and quantity positive, the total invested is
      positive as soon as there is a trade. */
  lemma {:induction false} TotalInvestedPositive(txs: seq<Transaction>)
    requires forall i :: 0 <= i < |txs| ==> txs[i].cijena > 0.0 && txs[i].kolicina > 0.0
    ensures |txs| > 0 ==> TotalInvested(txs) > 0.0
    ensures TotalInvested(txs) >= 0.0
  {
    if txs != [] {
      TotalInvestedPositive(txs[..|txs| - 1]);
      var last := txs[|txs| - 1];
      assert last.cijena * last.kolicina > 0.0;
    }
  }

  /** `transactions.filter(t => t.tip_transakcije === tip).length`. */
  function CountTip(txs: seq<Transaction>, tip: string): (n: nat)
    ensures n <= |txs|
  {
    if txs == [] then 0
    else CountTip(txs[..|txs| - 1], tip) + (if txs[|txs| - 1].tip == tip then 1 else 0)
  }

  /** `numLongs + numShorts` never exceeds `totalTrades`, and equals it
      exactly when every direction is LONG or SHORT. */
  lemma {:induction false} LongsAndShortsBound(txs: seq<Transaction>)
    ensures CountTip(txs, "LONG") + CountTip(txs, "SHORT") <= |txs|
    ensures CountTip(txs, "LONG") + CountTip(txs, "SHORT") == |txs| <==>
      forall i :: 0 <= i < |txs| ==> txs[i].tip == "LONG" || txs[i].tip == "SHORT"
  {
    if txs != [] {
      var init := txs[..|txs| - 1];
      LongsAndShortsBound(init);
      assert forall i :: 0 <= i < |init| ==> init[i] == txs[i];
      if CountTip(init, "LONG") + CountTip(init, "SHORT") < |init| {
        var k :| 0 <= k < |init| && init[k].tip != "LONG" && init[k].tip != "SHORT";
        assert txs[k].tip != "LONG" && txs[k].tip != "SHORT";
      }
    }
  }

  // ---------------------------------------------------------------------
  // Profit and loss

  /** The P/L of a trade at `price`: a LONG gains when the price rises above
      the entry, anything else gains when it falls below it. */
  function PLAt(t: Transaction, price: real): real
  {
    if t.tip == "LONG" then (price - t.cijena) * t.kolicina else (t.cijena - price) * t.kolicina
  }

  /** The `pl` that `tradesWithPL` attaches to a trade: 0 without a
      cryptocurrency, else the P/L at its symbol's current price. */
  function TradePL(t: Transaction, quote: string -> real): (pl: real)
    ensures t.cryptocurrency.None? ==> pl == 0.0
    ensures t.cryptocurrency.Some? ==> pl == PLAt(t, quote(t.cryptocurrency.value.symbol))
  {
    if t.cryptocurrency.None? then 0.0 else PLAt(t, quote(t.cryptocurrency.value.symbol))
  }

  /** For a positive quantity, a LONG's P/L never decreases as the price
      rises and any other trade's never increases; at the entry price it
      is 0. */
  lemma PLMonotoneInPrice(t: Transaction, p: real, q: real)
    requires t.kolicina > 0.0 && p <= q
    ensures t.tip == "LONG" ==> PLAt(t, p) <= PLAt(t, q)
    ensures t.tip != "LONG" ==> PLAt(t, p) >= PLAt(t, q)
    ensures PLAt(t, t.cijena) == 0.0
  {
    assert (q - t.cijena) * t.kolicina - (p - t.cijena) * t.kolicina == (q - p) * t.kolicina;
  }

  datatype TradeWithPL = TradeWithPL(trade: Transaction, pl: real)

  /** `tradesWithPL`. */
  function WithPL(txs: seq<Transaction>, quote: string -> real): (r: seq<TradeWithPL>)
    ensures |r| == |txs|
    ensures forall i :: 0 <= i < |r| ==> r[i].trade == txs[i] && r[i].pl == TradePL(txs[i], quote)
  {
    seq(|txs|, i requires 0 <= i < |txs| => TradeWithPL(txs[i], TradePL(txs[i], quote)))
  }

  /** `totalPL`: the sum of the trades' P/L. */
  function TotalPL(trades: seq<TradeWithPL>): (r: real)
    ensures trades == [] ==> r == 0.0
    ensures (forall i :: 0 <= i < |trades| ==> trades[i].pl >= 0.0) ==> r >= 0.0
    ensures (forall i :: 0 <= i < |trades| ==> trades[i].pl <= 0.0) ==> r <= 0.0
  {
    if trades == [] then 0.0 else TotalPL(trades[..|trades| - 1]) + trades[|trades| - 1].pl
  }

  /** `avgPL`: the mean P/L, 0 without trades. */
  function AvgPL(trades: seq<TradeWithPL>): (r: real)
    ensures |trades| == 0 ==> r == 0.0
    ensures |trades| > 0 ==> r * (|trades| as real) == TotalPL(trades)
  {
    if |trades| > 0 then TotalPL(trades) / (|trades| as real) else 0.0
  }

  /** `bestTrade`: absent for no trades, otherwise the first trade whose P/L
      is maximal (a later trade replaces it only when strictly better). */
  function BestTrade(trades: seq<TradeWithPL>): (r: Option<TradeWithPL>)
    ensures r.None? <==> trades == []
    ensures r.Some? ==> forall j :: 0 <= j < |trades| ==> trades[j].pl <= r.value.pl
    ensures r.Some? ==>
      exists i :: 0 <= i < |trades| && trades[i] == r.value && (forall j :: 0 <= j < i ==> trades[j].pl < r.value.pl)
  {
    if trades == [] then None
    else
      var init, t := trades[..|trades| - 1], trades[|trades| - 1];
      var prev := BestTrade(init);
      assert forall j :: 0 <= j < |init| ==> init[j] == trades[j];
      if prev.None? || t.pl > prev.value.pl then Some(t) else prev
  }

  /** `worstTrade`: absent for no trades, otherwise the first trade whose P/L
      is minimal. */
  function WorstTrade(trades: seq<TradeWithPL>): (r: Option<TradeWithPL>)
    ensures r.None? <==> trades == []
    ensures r.Some? ==> forall j :: 0 <= j < |trades| ==> trades[j].pl >= r.value.pl
    ensures r.Some? ==>
      exists i :: 0 <= i < |trades| && trades[i] == r.value && (forall j :: 0 <= j < i ==> trades[j].pl > r.value.pl)
  {
    if trades == [] then None
    else
      var init, t := trades[..|trades| - 1], trades[|trades| - 1];
      var prev := WorstTrade(init);
      assert forall j :: 0 <= j < |init| ==> init[j] == trades[j];
      if prev.None? || t.pl < prev.value.pl then Some(t) else prev
  }

  // ---------------------------------------------------------------------
  // P/L by asset

  /** One bar of the chart: an asset's label and its summed P/L. */
  datatype ChartRow = ChartRow(name: string, pl: real)

  /** `name + ' (' + symbol + ')'`, the key trades are grouped under. */
  function AssetKey(c: Cryptocurrency): string
  {
    c.name + " (" + c.symbol + ")"
  }

  /** Where the row for `name` is, if there is one. */
  function IndexOfName(chart: seq<ChartRow>, name: string): Option<nat>
  {
    FindIndex(chart, (r: ChartRow) => r.name == name)
  }

  /** One accumulation step: add `pl` to the row for `name`, creating that
      row (at the end, starting from 0) when it is missing. */
  function AddTo(chart: seq<ChartRow>, name: string, pl: real): seq<ChartRow>
  {
    match IndexOfName(chart, name)
    case Some(j) => chart[j := ChartRow(name, chart[j].pl + pl)]
    case None => chart + [ChartRow(name, 0.0 + pl)]
  }

  /** `Object.values(plByAsset)`: the reduce over the trades, skipping those
      without a cryptocurrency. */
  function Grouped(trades: seq<TradeWithPL>): seq<ChartRow>
  {
    if trades == [] then []
    else
      var prev, t := Grouped(trades[..|trades| - 1]), trades[|trades| - 1];
      if t.trade.cryptocurrency.None? then prev
      else AddTo(prev, AssetKey(t.trade.cryptocurrency.value), t.pl)
  }

  /** The P/L of the trades grouped under `name`. */
  function PLOf(trades: seq<TradeWithPL>, name: string): real
  {
    if trades == [] then 0.0
    else
      var t := trades[|trades| - 1];
      PLOf(trades[..|trades| - 1], name) +
        (if t.trade.cryptocurrency.Some? && AssetKey(t.trade.cryptocurrency.value) == name then t.pl else 0.0)
  }

  /** The sum of the bars. */
  function SumRows(chart: seq<ChartRow>): real
  {
    if chart == [] then 0.0 else chart[0].pl + SumRows(chart[1..])
  }

  predicate DistinctNames(chart: seq<ChartRow>)
  {
    forall i, j :: 0 <= i < j < |chart| ==> chart[i].name != chart[j].name
  }

  lemma {:induction false} SumRowsAppend(chart: seq<ChartRow>, row: ChartRow)
    ensures SumRows(chart + [row]) == SumRows(chart) + row.pl
  {
    if chart != [] {
      assert (chart + [row])[1..] == chart[1..] + [row];
      SumRowsAppend(chart[1..], row);
    }
  }

  lemma {:induction false} SumRowsUpdate(chart: seq<ChartRow>, j: nat, row: ChartRow)
    requires j < |chart|
    ensures SumRows(chart[j := row]) == SumRows(chart) - chart[j].pl + row.pl
  {
    if j > 0 {
      assert chart[j := row][1..] == chart[1..][j - 1 := row];
      SumRowsUpdate(chart[1..], j - 1, row);
    }
  }

  lemma SumRowsAddTo(chart: seq<ChartRow>, name: string, pl: real)
    ensures SumRows(AddTo(chart, name, pl)) == SumRows(chart) + pl
  {
    match IndexOfName(chart, name)
    case Some(j) => SumRowsUpdate(chart, j, ChartRow(name, chart[j].pl + pl));
    case None => SumRowsAppend(chart, ChartRow(name, 0.0 + pl));
  }

  /** The bars add up to `totalPL` (trades without a cryptocurrency carry a
      P/L of 0, as `tradesWithPL` gives them). */
  lemma {:induction false} ChartSumsToTotal(trades: seq<TradeWithPL>)
    requires forall i :: 0 <= i < |trades| ==> trades[i].trade.cryptocurrency.None? ==> trades[i].pl == 0.0
    ensures SumRows(Grouped(trades)) == TotalPL(trades)
  {
    if trades != [] {
      var init, t := trades[..|trades| - 1], trades[|trades| - 1];
      assert forall i :: 0 <= i < |init| ==> init[i] == trades[i];
      ChartSumsToTotal(init);
      if t.trade.cryptocurrency.Some? {
        SumRowsAddTo(Grouped(init), AssetKey(t.trade.cryptocurrency.value), t.pl);
      }
    }
  }

  /** The chart of the trades the page shows adds up to their total P/L. */
  lemma ChartOfPageSumsToTotal(txs: seq<Transaction>, quote: string -> real)
    ensures SumRows(Grouped(WithPL(txs, quote))) == TotalPL(WithPL(txs, quote))
  {
    ChartSumsToTotal(WithPL(txs, quote));
  }

  /** Each asset has exactly one bar, holding the P/L of exactly the trades
      grouped under its name; an asset without a bar has no trades. */
  lemma {:induction false} ChartGroupsByAsset(trades: seq<TradeWithPL>)
    ensures DistinctNames(Grouped(trades))
    ensures forall r :: 0 <= r < |Grouped(trades)| ==> Grouped(trades)[r].pl == PLOf(trades, Grouped(trades)[r].name)
    ensures forall name :: IndexOfName(Grouped(trades), name).None? ==> PLOf(trades, name) == 0.0
  {
    if trades != [] {
      var init, t := trades[..|trades| - 1], trades[|trades| - 1];
      ChartGroupsByAsset(init);
      var prev := Grouped(init);
      if t.trade.cryptocurrency.Some? {
        var key := AssetKey(t.trade.cryptocurrency.value);
        var g := AddTo(prev, key, t.pl);
        assert g == Grouped(trades);
        match IndexOfName(prev, key)
        case Some(j) =>
          assert |g| == |prev|;
          forall r | 0 <= r < |g|
            ensures g[r].pl == PLOf(trades, g[r].name)
          {
            if r != j {
              assert g[r] == prev[r] && prev[r].name != key;
            }
          }
          forall name | IndexOfName(g, name).None?
            ensures PLOf(trades, name) == 0.0
          {
            assert g[j].name == key;
            if name != key {
              assert forall i :: 0 <= i < |prev| ==> prev[i].name == g[i].name;
            }
          }
        case None =>
          forall r | 0 <= r < |g|
            ensures g[r].pl == PLOf(trades, g[r].name)
          {
            if r < |prev| {
              assert g[r] == prev[r] && prev[r].name != key;
            }
          }
          forall name | IndexOfName(g, name).None?
            ensures PLOf(trades, name) == 0.0
          {
            assert g[|prev|].name == key;
            assert forall i :: 0 <= i < |prev| ==> prev[i].name == g[i].name;
          }
      } else {
        assert Grouped(trades) == prev;
      }
    }
  }

  /** The rows of an insertion-ordered dictionary. */
  function Rows(acc: map<string, real>, keys: seq<string>): (rows: seq<ChartRow>)
    requires forall j :: 0 <= j < |keys| ==> keys[j] in acc
    ensures |rows| == |keys|
    ensures forall j :: 0 <= j < |keys| ==> rows[j] == ChartRow(keys[j], acc[keys[j]])
  {
    seq(|keys|, j requires 0 <= j < |keys| => ChartRow(keys[j], acc[keys[j]]))
  }

  /** Updating the dictionary in place is the accumulation step on its rows. */
  lemma AccumulateStep(acc: map<string, real>, keys: seq<string>, name: string, pl: real)
    requires forall k :: k in acc <==> k in keys
    requires forall i, j :: 0 <= i < j < |keys| ==> keys[i] != keys[j]
    ensures name in acc ==> Rows(acc[name := acc[name] + pl], keys) == AddTo(Rows(acc, keys), name, pl)
    ensures name !in acc ==>
      var acc' := acc[name := 0.0];
      Rows(acc'[name := acc'[name] + pl], keys + [name]) == AddTo(Rows(acc, keys), name, pl)
  {
    var rows := Rows(acc, keys);
    if name in acc {
      var j :| 0 <= j < |keys| && keys[j] == name;
      assert rows[j].name == name;
      var k := IndexOfName(rows, name).value;
      assert keys[k] == name;
      assert k == j;
      var v := acc[name] + pl;
      assert AddTo(rows, name, pl) == rows[j := ChartRow(name, v)];
      var lhs, rhs := Rows(acc[name := v], keys), rows[j := ChartRow(name, v)];
      assert |lhs| == |rhs|;
      assert forall i :: 0 <= i < |keys| ==> lhs[i] == rhs[i];
      assert lhs == rhs;
    } else {
      assert IndexOfName(rows, name).None?;
    }
  }

  /** `plByAsset` built as the source builds it: a dictionary updated in
      place, keyed in insertion order, then read out as `chartData`. */
  method PlByAsset(trades: seq<TradeWithPL>) returns (chart: seq<ChartRow>)
    ensures chart == Grouped(trades)
  {
    var acc: map<string, real> := map[];
    var keys: seq<string> := [];
    var i := 0;
    while i < |trades|
      invariant 0 <= i <= |trades|
      invariant forall k :: k in acc <==> k in keys
      invariant forall a, b :: 0 <= a < b < |keys| ==> keys[a] != keys[b]
      invariant Rows(acc, keys) == Grouped(trades[..i])
    {
      var t := trades[i];
      assert trades[..i + 1][..i] == trades[..i];
      if t.trade.cryptocurrency.Some? {
        var name := t.trade.cryptocurrency.value.name + " (" + t.trade.cryptocurrency.value.symbol + ")";
        AccumulateStep(acc, keys, name, t.pl);
        if name !in acc {
          acc := acc[name := 0.0];
          keys := keys + [name];
        }
        acc := acc[name := acc[name] + t.pl];
      }
      i := i + 1;
    }
    assert trades[..i] == trades;
    chart := Rows(acc, keys);
  }
}
