/**
 * `LedgerService.createTransaction` of backend/src/services/ledger.service.ts:
 * an amount guard in front of the repository. The repository is a
 * parameter whose failure is passed through unchanged; the outcome records
 * the entries the repository was asked to create.
 */
module LedgerService {
  import opened Wrappers

  datatype Entry = Entry(amount: real, description: string, kind: string)

  datatype Outcome<R> = Outcome(result: Result<R, string>, created: seq<Entry>)

  const InvalidAmount := "Invalid amount"

  /** `createTransaction(transaction)` with `create` standing for the
      repository's `create`. */
  function CreateTransaction<R>(create: Entry -> Result<R, string>, e: Entry): (o: Outcome<R>)
    ensures e.amount <= 0.0 ==> o.result == Failure(InvalidAmount) && o.created == []
    ensures e.amount > 0.0 ==> o.result == create(e) && o.created == [e]
  {
    if e.amount <= 0.0 then Outcome(Failure(InvalidAmount), [])
    else Outcome(create(e), [e])
  }

  /** The boundary amount 0 is rejected before the repository is reached,
      whatever the repository would have done. */
  lemma ZeroRejected<R>(create: Entry -> Result<R, string>, description: string, kind: string)
    ensures CreateTransaction(create, Entry(0.0, description, kind)) == Outcome(Failure(InvalidAmount), [])
  {
  }
}
