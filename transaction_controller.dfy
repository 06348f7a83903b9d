/**
 * `TransactionController.createTransaction` of
 * backend/src/controllers/transaction.controller.ts: validate, then value.
 * The injected service's balance check is a parameter; the value is the
 * service's `calculateTransactionValue`. The outcome records which
 * service operations ran, in order, so that the short-circuit is visible.
 */
module TransactionController {
  import opened Wrappers
  import opened TransactionService

  /** A call the controller makes on its service. */
  datatype ServiceCall = ValidateCall(input: TransactionInput) | ValueCall(input: TransactionInput)

  datatype Outcome = Outcome(result: Result<real, string>, calls: seq<ServiceCall>)

  const InvalidTransaction := "Invalid transaction"

  /** `createTransaction(transaction)` with `validate` standing for the
      service's `validateTransactionBalance`. */
  function CreateTransaction(validate: TransactionInput -> bool, t: TransactionInput): (o: Outcome)
    ensures |o.calls| >= 1 && o.calls[0] == ValidateCall(t)
    ensures o.result.Failure? <==> !validate(t)
    ensures o.result.Failure? ==> o.result.error == InvalidTransaction && o.calls == [ValidateCall(t)]
    ensures o.result.Success? ==>
      o.result.value == t.kolicina * t.cijena && o.calls == [ValidateCall(t), ValueCall(t)]
  {
    if !validate(t) then Outcome(Failure(InvalidTransaction), [ValidateCall(t)])
    else Outcome(Success(CalculateTransactionValue(t)), [ValidateCall(t), ValueCall(t)])
  }

  /** With the real service, anything but a SELL always yields its value. */
  lemma NonSellAlwaysValued(t: TransactionInput, table: Option<seq<Stored>>)
    requires t.tip != "SELL"
    ensures CreateTransaction(x => ValidateTransactionBalance(x, table), t).result == Success(t.kolicina * t.cijena)
  {
    var validate := x => ValidateTransactionBalance(x, table);
    assert validate(t);
    assert CreateTransaction(validate, t).result == Success(CalculateTransactionValue(t));
  }

  /** With the real service, a SELL succeeds iff a result set exists and the
      pair's net position covers the quantity. */
  lemma SellValuedIffCovered(t: TransactionInput, table: Option<seq<Stored>>)
    requires t.tip == "SELL"
    ensures CreateTransaction(x => ValidateTransactionBalance(x, table), t).result.Success? <==>
      table.Some? &&
      Bought(SamePair(table.value, t.portfolioId, t.cryptocurrencyId))
      - Sold(SamePair(table.value, t.portfolioId, t.cryptocurrencyId)) >= t.kolicina
  {
    var validate := x => ValidateTransactionBalance(x, table);
    assert validate(t) == ValidateTransactionBalance(t, table);
  }
}
