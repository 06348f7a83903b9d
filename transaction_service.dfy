/**
 * The balance accounting and valuation rules of
 * backend/src/services/transaction.service.ts. The service reads the
 * `transactions` table through the database client; here the table (or the
 * absence of a result set) is an input, and the service's filters are
 * applied to it explicitly.
 */
module TransactionService {
  import opened Wrappers

  /** `CreateTransactionInput`: a request that passed `transactionSchema`. */
  datatype TransactionInput = TransactionInput(
    portfolioId: string,
    cryptocurrencyId: string,
    tip: string,
    kolicina: real,
    cijena: real,
    datum: string,
    riskTypeId: Option<string>)

  /** A stored transaction row, with the `current_price` of its joined
      cryptocurrency (None when the join yields null). */
  datatype Stored = Stored(
    portfolioId: string,
    cryptocurrencyId: string,
    tip: string,
    kolicina: real,
    cijena: real,
    currentPrice: Option<real>)

  // ---------------------------------------------------------------------
  // Transaction value

  /** `calculateTransactionValue`: the value of a transaction at entry. */
  function CalculateTransactionValue(t: TransactionInput): (v: real)
    ensures v == t.kolicina * t.cijena
    ensures t.kolicina > 0.0 && t.cijena > 0.0 ==> v > 0.0
  {
    t.kolicina * t.cijena
  }

  /** The two transactions the unit tests value. */
  lemma TestedValues(p: string, c: string, tip: string, d: string, risk: Option<string>)
    ensures CalculateTransactionValue(TransactionInput(p, c, tip, 2.5, 100.0, d, risk)) == 250.0
    ensures CalculateTransactionValue(TransactionInput(p, c, tip, 2.0, 150.0, d, risk)) == 300.0
  {
  }

  // ---------------------------------------------------------------------
  // Balance accounting

  /** The rows the balance query selects: same portfolio and cryptocurrency,
      in table order. */
  function SamePair(rows: seq<Stored>, portfolioId: string, cryptocurrencyId: string): (r: seq<Stored>)
    ensures |r| <= |rows|
    ensures forall x :: x in r <==> x in rows && x.portfolioId == portfolioId && x.cryptocurrencyId == cryptocurrencyId
    ensures r == [] <==> forall x :: x in rows ==> x.portfolioId != portfolioId || x.cryptocurrencyId != cryptocurrencyId
  {
    if rows == [] then []
    else if rows[0].portfolioId == portfolioId && rows[0].cryptocurrencyId == cryptocurrencyId
    then [rows[0]] + SamePair(rows[1..], portfolioId, cryptocurrencyId)
    else SamePair(rows[1..], portfolioId, cryptocurrencyId)
  }

  /** The balance query keeps every matching row as often as the table holds
      it, and no other row: repeated rows all count. */
  lemma {:induction false} SamePairMultiplicity(rows: seq<Stored>, portfolioId: string, cryptocurrencyId: string)
    ensures forall x :: (multiset(SamePair(rows, portfolioId, cryptocurrencyId))[x] ==
      if x.portfolioId == portfolioId && x.cryptocurrencyId == cryptocurrencyId then multiset(rows)[x] else 0)
  {
    if rows != [] {
      SamePairMultiplicity(rows[1..], portfolioId, cryptocurrencyId);
      assert rows == [rows[0]] + rows[1..];
    }
  }

  lemma {:induction false} SamePairAppend(a: seq<Stored>, b: seq<Stored>, p: string, c: string)
    ensures SamePair(a + b, p, c) == SamePair(a, p, c) + SamePair(b, p, c)
  {
    if a == [] {
      assert a + b == b;
    } else {
      assert (a + b)[1..] == a[1..] + b;
      SamePairAppend(a[1..], b, p, c);
    }
  }

  /** One row's contribution to the balance: a BUY adds its quantity, any
      other direction subtracts it. */
  function Signed(row: Stored): real
  {
    if row.tip == "BUY" then row.kolicina else -row.kolicina
  }

  /** The `reduce` of the balance check, a left fold starting at 0. */
  function NetBalance(rows: seq<Stored>): real
  {
    if rows == [] then 0.0 else NetBalance(rows[..|rows| - 1]) + Signed(rows[|rows| - 1])
  }

  /** Sum of the quantities of the BUY rows. */
  function Bought(rows: seq<Stored>): real
  {
    if rows == [] then 0.0
    else (if rows[0].tip == "BUY" then rows[0].kolicina else 0.0) + Bought(rows[1..])
  }

  /** Sum of the quantities of every other row. */
  function Sold(rows: seq<Stored>): real
  {
    if rows == [] then 0.0
    else (if rows[0].tip == "BUY" then 0.0 else rows[0].kolicina) + Sold(rows[1..])
  }

  lemma {:induction false} BoughtSoldSnoc(rows: seq<Stored>, x: Stored)
    ensures Bought(rows + [x]) == Bought(rows) + (if x.tip == "BUY" then x.kolicina else 0.0)
    ensures Sold(rows + [x]) == Sold(rows) + (if x.tip == "BUY" then 0.0 else x.kolicina)
  {
    if rows != [] {
      assert (rows + [x])[1..] == rows[1..] + [x];
      BoughtSoldSnoc(rows[1..], x);
    }
  }

  /** The fold computes the net position: bought minus everything else. */
  lemma {:induction false} NetBalanceIsBoughtMinusSold(rows: seq<Stored>)
    ensures NetBalance(rows) == Bought(rows) - Sold(rows)
  {
    if rows != [] {
      var init, last := rows[..|rows| - 1], rows[|rows| - 1];
      assert rows == init + [last];
      NetBalanceIsBoughtMinusSold(init);
      BoughtSoldSnoc(init, last);
    }
  }

  /** The balance does not depend on how the history is split. */
  lemma {:induction false} NetBalanceAppend(a: seq<Stored>, b: seq<Stored>)
    ensures NetBalance(a + b) == NetBalance(a) + NetBalance(b)
  {
    if b != [] {
      var init, last := b[..|b| - 1], b[|b| - 1];
      assert a + b == (a + init) + [last];
      assert (a + b)[..|a + b| - 1] == a + init;
      NetBalanceAppend(a, init);
    } else {
      assert a + b == a;
    }
  }

  /** `validateTransactionBalance`. A SELL needs a result set whose net
      position for the same pair covers the quantity (equality suffices);
      every other direction is admitted without looking at the history. */
  function ValidateTransactionBalance(t: TransactionInput, table: Option<seq<Stored>>): (ok: bool)
    ensures t.tip != "SELL" ==> ok
    ensures t.tip == "SELL" ==>
      (ok <==> table.Some? &&
               Bought(SamePair(table.value, t.portfolioId, t.cryptocurrencyId))
               - Sold(SamePair(table.value, t.portfolioId, t.cryptocurrencyId)) >= t.kolicina)
  {
    if t.tip == "SELL" then
      match table
      case None => false
      case Some(rows) =>
        var history := SamePair(rows, t.portfolioId, t.cryptocurrencyId);
        NetBalanceIsBoughtMinusSold(history);
        NetBalance(history) >= t.kolicina
    else true
  }

  /** With no prior row for the pair the balance is 0, so every SELL of a
      positive quantity is rejected (the unit test sells 1 000 000). */
  lemma SellWithoutHoldingsRejected(t: TransactionInput, rows: seq<Stored>)
    requires t.tip == "SELL" && t.kolicina > 0.0
    requires forall x :: x in rows ==> x.portfolioId != t.portfolioId || x.cryptocurrencyId != t.cryptocurrencyId
    ensures !ValidateTransactionBalance(t, Some(rows))
  {
    var history := SamePair(rows, t.portfolioId, t.cryptocurrencyId);
  }

  /** A missing result set rejects a SELL even of nothing, unlike an empty one. */
  lemma MissingResultSetRejectsSell(t: TransactionInput)
    requires t.tip == "SELL" && t.kolicina <= 0.0
    ensures !ValidateTransactionBalance(t, None)
    ensures ValidateTransactionBalance(t, Some([]))
  {
    assert SamePair([], t.portfolioId, t.cryptocurrencyId) == [];
  }

  /** Selling exactly what was bought is admitted. */
  lemma SellWholeHoldingAdmitted(t: TransactionInput, cijena: real, price: Option<real>)
    requires t.tip == "SELL"
    ensures ValidateTransactionBalance(t, Some([Stored(t.portfolioId, t.cryptocurrencyId, "BUY", t.kolicina, cijena, price)]))
  {
    var row := Stored(t.portfolioId, t.cryptocurrencyId, "BUY", t.kolicina, cijena, price);
    assert SamePair([row], t.portfolioId, t.cryptocurrencyId) == [row];
    assert [row][..0] == [];
  }

  /** Rows of other portfolios or cryptocurrencies never change the verdict. */
  lemma OtherPairsIrrelevant(t: TransactionInput, rows: seq<Stored>, others: seq<Stored>)
    requires forall x :: x in others ==> x.portfolioId != t.portfolioId || x.cryptocurrencyId != t.cryptocurrencyId
    ensures ValidateTransactionBalance(t, Some(rows + others)) == ValidateTransactionBalance(t, Some(rows))
  {
    SamePairAppend(rows, others, t.portfolioId, t.cryptocurrencyId);
    var extra := SamePair(others, t.portfolioId, t.cryptocurrencyId);
    assert SamePair(rows, t.portfolioId, t.cryptocurrencyId) + extra == SamePair(rows, t.portfolioId, t.cryptocurrencyId);
  }

  // ---------------------------------------------------------------------
  // Portfolio valuation

  /** The rows the valuation query selects: the portfolio's, in table order. */
  function OfPortfolio(rows: seq<Stored>, portfolioId: string): (r: seq<Stored>)
    ensures |r| <= |rows|
    ensures forall x :: x in r <==> x in rows && x.portfolioId == portfolioId
    ensures r == [] <==> forall x :: x in rows ==> x.portfolioId != portfolioId
  {
    if rows == [] then []
    else if rows[0].portfolioId == portfolioId then [rows[0]] + OfPortfolio(rows[1..], portfolioId)
    else OfPortfolio(rows[1..], portfolioId)
  }

  /** The valuation query keeps every row of the portfolio as often as the
      table holds it, and no other row. */
  lemma {:induction false} OfPortfolioMultiplicity(rows: seq<Stored>, portfolioId: string)
    ensures forall x :: (multiset(OfPortfolio(rows, portfolioId))[x] ==
      if x.portfolioId == portfolioId then multiset(rows)[x] else 0)
  {
    if rows != [] {
      OfPortfolioMultiplicity(rows[1..], portfolioId);
      assert rows == [rows[0]] + rows[1..];
    }
  }

  /** `t.cryptocurrency?.current_price || t.cijena`: the current price when
      it is present and non-zero, the entry price otherwise. */
  function EffectivePrice(row: Stored): (p: real)
    ensures row.currentPrice.Some? && row.currentPrice.value != 0.0 ==> p == row.currentPrice.value
    ensures row.currentPrice.None? || row.currentPrice.value == 0.0 ==> p == row.cijena
  {
    if row.currentPrice.Some? && row.currentPrice.value != 0.0 then row.currentPrice.value else row.cijena
  }

  /** What one row adds to the value: quantity times effective price. */
  function Amount(row: Stored): real
  {
    row.kolicina * EffectivePrice(row)
  }

  /** The `reduce` of the valuation, a left fold starting at 0. */
  function ValueSum(rows: seq<Stored>): real
  {
    if rows == [] then 0.0
    else ValueSum(rows[..|rows| - 1]) + Amount(rows[|rows| - 1])
  }

  lemma {:induction false} ValueSumAppend(a: seq<Stored>, b: seq<Stored>)
    ensures ValueSum(a + b) == ValueSum(a) + ValueSum(b)
  {
    if b != [] {
      var init, last := b[..|b| - 1], b[|b| - 1];
      assert a + b == (a + init) + [last];
      assert (a + b)[..|a + b| - 1] == a + init;
      ValueSumAppend(a, init);
    } else {
      assert a + b == a;
    }
  }

  /** Taking one row out of the fold takes out exactly its amount. */
  lemma ValueSumRemove(b: seq<Stored>, k: nat)
    requires k < |b|
    ensures ValueSum(b) == ValueSum(b[..k] + b[k + 1..]) + Amount(b[k])
  {
    var pre, x, post := b[..k], b[k], b[k + 1..];
    assert b == pre + ([x] + post);
    assert ValueSum([x]) == Amount(x) by {
      assert [x][..0] == [];
    }
    ValueSumAppend([x], post);
    ValueSumAppend(pre, [x] + post);
    ValueSumAppend(pre, post);
  }

  /** Taking the row at `k` out of a list takes one copy of it out of the
      list's multiset. */
  lemma MultisetRemove(b: seq<Stored>, k: nat)
    requires k < |b|
    ensures multiset(b[..k] + b[k + 1..]) == multiset(b) - multiset{b[k]}
  {
    assert b == b[..k] + [b[k]] + b[k + 1..];
  }

  /** The order of the rows does not change the value: any rearrangement of
      the same rows, repeated rows included, has the same sum. */
  lemma {:induction false} ValueSumOrderIndependent(a: seq<Stored>, b: seq<Stored>)
    requires multiset(a) == multiset(b)
    ensures ValueSum(a) == ValueSum(b)
    decreases |a|
  {
    if a == [] {
      assert |b| == |multiset(b)| == 0;
    } else {
      var x, a' := a[|a| - 1], a[..|a| - 1];
      MultisetRemove(a, |a| - 1);
      assert a[..|a| - 1] + a[|a|..] == a';
      assert x in multiset(b);
      var k :| 0 <= k < |b| && b[k] == x;
      MultisetRemove(b, k);
      ValueSumOrderIndependent(a', b[..k] + b[k + 1..]);
      ValueSumRemove(b, k);
    }
  }

  /** Every row with non-negative quantity and prices contributes a
      non-negative amount. */
  lemma {:induction false} ValueSumNonNegative(rows: seq<Stored>)
    requires forall x :: x in rows ==> x.kolicina >= 0.0 && x.cijena >= 0.0 && (x.currentPrice.Some? ==> x.currentPrice.value >= 0.0)
    ensures ValueSum(rows) >= 0.0
  {
    if rows != [] {
      var init, last := rows[..|rows| - 1], rows[|rows| - 1];
      assert last in rows;
      assert forall x :: x in init ==> x in rows;
      ValueSumNonNegative(init);
      assert EffectivePrice(last) >= 0.0;
      assert Amount(last) >= 0.0;
    }
  }

  /** `calculatePortfolioValue`: 0 when there is no result set, otherwise the
      sum over the portfolio's rows of quantity times effective price. */
  function CalculatePortfolioValue(table: Option<seq<Stored>>, portfolioId: string): (v: real)
    ensures table.None? ==> v == 0.0
    ensures table.Some? ==> v == ValueSum(OfPortfolio(table.value, portfolioId))
  {
    match table
    case None => 0.0
    case Some(rows) => ValueSum(OfPortfolio(rows, portfolioId))
  }

  /** A portfolio without rows is worth 0, as is a missing result set. */
  lemma EmptyPortfolioWorthNothing(rows: seq<Stored>, portfolioId: string)
    requires forall x :: x in rows ==> x.portfolioId != portfolioId
    ensures CalculatePortfolioValue(Some(rows), portfolioId) == 0.0
  {
    var mine := OfPortfolio(rows, portfolioId);
  }

  /** The portfolio's value does not depend on how the table orders its
      rows, nor on the rows of other portfolios. */
  lemma PortfolioValueOrderIndependent(rows: seq<Stored>, rows': seq<Stored>, portfolioId: string)
    requires multiset(OfPortfolio(rows, portfolioId)) == multiset(OfPortfolio(rows', portfolioId)) || multiset(rows) == multiset(rows')
    ensures CalculatePortfolioValue(Some(rows), portfolioId) == CalculatePortfolioValue(Some(rows'), portfolioId)
  {
    var mine, mine' := OfPortfolio(rows, portfolioId), OfPortfolio(rows', portfolioId);
    OfPortfolioMultiplicity(rows, portfolioId);
    OfPortfolioMultiplicity(rows', portfolioId);
    assert forall x :: multiset(mine)[x] == multiset(mine')[x];
    assert multiset(mine) == multiset(mine');
    ValueSumOrderIndependent(mine, mine');
  }

  /** When the portfolio's own rows have non-negative quantity, entry price
      and current price (a current price of 0 included, which falls back to
      the entry price), the value is never negative; other portfolios' rows
      may hold anything. */
  lemma PortfolioValueNonNegative(table: Option<seq<Stored>>, portfolioId: string)
    requires table.Some? ==> forall x :: x in table.value && x.portfolioId == portfolioId ==>
      x.kolicina >= 0.0 && x.cijena >= 0.0 && (x.currentPrice.Some? ==> x.currentPrice.value >= 0.0)
    ensures CalculatePortfolioValue(table, portfolioId) >= 0.0
  {
    if table.Some? {
      ValueSumNonNegative(OfPortfolio(table.value, portfolioId));
    }
  }
}
