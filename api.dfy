/**
 * The direction vocabulary boundary of frontend/src/lib/api.ts: the
 * frontend speaks LONG/SHORT, the backend BUY/SELL. The HTTP exchange
 * itself is a parameter (None standing for a response that is not ok).
 */
module Api {
  import opened Wrappers
  import opened Types

  /** `mapToBackendType`: "LONG" is a BUY, anything else a SELL. */
  function MapToBackendType(tip: string): (r: string)
    ensures r == "BUY" || r == "SELL"
    ensures r == "BUY" <==> tip == "LONG"
  {
    if tip == "LONG" then "BUY" else "SELL"
  }

  /** `mapToFrontendType`: "BUY" is a LONG, anything else a SHORT. */
  function MapToFrontendType(tip: string): (r: string)
    ensures r == "LONG" || r == "SHORT"
    ensures r == "LONG" <==> tip == "BUY"
  {
    if tip == "BUY" then "LONG" else "SHORT"
  }

  /** On the two vocabularies the maps are inverse bijections. */
  lemma DirectionRoundTrips(tip: string)
    ensures tip == "LONG" || tip == "SHORT" ==> MapToFrontendType(MapToBackendType(tip)) == tip
    ensures tip == "BUY" || tip == "SELL" ==> MapToBackendType(MapToFrontendType(tip)) == tip
  {
  }

  /** `{ ...transaction, tip_transakcije: mapToFrontendType(...) }`. */
  function ToFrontend(t: Transaction): (r: Transaction)
    ensures r.(tip := t.tip) == t
    ensures r.tip == MapToFrontendType(t.tip)
  {
    t.(tip := MapToFrontendType(t.tip))
  }

  /** `transactions.getAll`: the backend's list, element by element, with
      only the direction translated. */
  function GetAll(response: Option<seq<Transaction>>): (r: Result<seq<Transaction>, string>)
    ensures response.None? <==> r == Failure("Failed to fetch transactions")
    ensures response.Some? ==> r.Success? && |r.value| == |response.value|
    ensures response.Some? ==> forall i :: 0 <= i < |r.value| ==>
      r.value[i].(tip := response.value[i].tip) == response.value[i] &&
      (r.value[i].tip == "LONG" <==> response.value[i].tip == "BUY") &&
      (r.value[i].tip == "LONG" || r.value[i].tip == "SHORT")
  {
    match response
    case None => Failure("Failed to fetch transactions")
    case Some(data) => Success(seq(|data|, i requires 0 <= i < |data| => ToFrontend(data[i])))
  }

  /** A list whose directions are all BUY/SELL is recovered exactly by
      mapping the directions back. */
  lemma GetAllRecoverable(data: seq<Transaction>)
    requires forall i :: 0 <= i < |data| ==> data[i].tip == "BUY" || data[i].tip == "SELL"
    ensures GetAll(Some(data)).Success?
    ensures forall i :: 0 <= i < |data| ==>
      var f := GetAll(Some(data)).value[i]; f.(tip := MapToBackendType(f.tip)) == data[i]
  {
    forall i | 0 <= i < |data|
      ensures var f := GetAll(Some(data)).value[i]; f.(tip := MapToBackendType(f.tip)) == data[i]
    {
      DirectionRoundTrips(data[i].tip);
    }
  }

  /** The body of `transactions.create`. */
  datatype CreateInput = CreateInput(
    portfolioId: string,
    cryptocurrencyId: string,
    tip: string,
    kolicina: real,
    cijena: real,
    datum: string,
    riskTypeId: string)

  /** The request body `create` sends: the input with only the direction
      translated to the backend vocabulary. */
  function CreateBody(data: CreateInput): (b: CreateInput)
    ensures b.(tip := data.tip) == data
    ensures b.tip == MapToBackendType(data.tip)
  {
    data.(tip := MapToBackendType(data.tip))
  }

  /** `transactions.create`, with `post` standing for the POST request. */
  function Create(data: CreateInput, post: CreateInput -> Option<Transaction>): (r: Result<Transaction, string>)
    ensures post(CreateBody(data)).None? <==> r == Failure("Failed to create position")
    ensures post(CreateBody(data)).Some? ==> r == Success(ToFrontend(post(CreateBody(data)).value))
  {
    match post(CreateBody(data))
    case None => Failure("Failed to create position")
    case Some(created) => Success(ToFrontend(created))
  }

  /** The body of `transactions.update`: every field optional. */
  datatype UpdateInput = UpdateInput(
    portfolioId: Option<string>,
    cryptocurrencyId: Option<string>,
    tip: Option<string>,
    kolicina: Option<real>,
    cijena: Option<real>,
    datum: Option<string>,
    riskTypeId: Option<string>)

  /** The request body `update` sends: the direction is translated only when
      present (and non-empty); otherwise the body is the input itself. */
  function UpdateBody(data: UpdateInput): (b: UpdateInput)
    ensures b.(tip := data.tip) == data
    ensures data.tip.None? ==> b.tip.None?
    ensures data.tip.Some? && data.tip.value != "" ==> b.tip == Some(MapToBackendType(data.tip.value))
    ensures data.tip == Some("") ==> b == data
  {
    if data.tip.Some? && data.tip.value != "" then data.(tip := Some(MapToBackendType(data.tip.value)))
    else data
  }

  /** `transactions.update`, with `patch` standing for the PATCH request. */
  function Update(data: UpdateInput, patch: UpdateInput -> Option<Transaction>): (r: Result<Transaction, string>)
    ensures patch(UpdateBody(data)).None? <==> r == Failure("Failed to update position")
    ensures patch(UpdateBody(data)).Some? ==> r == Success(ToFrontend(patch(UpdateBody(data)).value))
  {
    match patch(UpdateBody(data))
    case None => Failure("Failed to update position")
    case Some(updated) => Success(ToFrontend(updated))
  }

  // ---------------------------------------------------------------------
  // The transaction form submits "BUY"/"SELL" (TransactionForm.tsx), and
  // the creation path hands that value to `create`, whose mapping knows
  // only "LONG": a BUY from the form is sent as a SELL.

  /** As written: a form BUY reaches the backend as a SELL. */
  lemma FormBuySentAsSell(data: CreateInput)
    requires data.tip == "BUY"
    ensures CreateBody(data).tip == "SELL"
  {
  }

  /** The evidently intended mapping: both vocabularies translate to the
      backend's, each keeping its meaning. */
  function MapAnyToBackendType(tip: string): (r: string)
    ensures r == "BUY" || r == "SELL"
    ensures r == "BUY" <==> tip == "LONG" || tip == "BUY"
  {
    if tip == "LONG" || tip == "BUY" then "BUY" else "SELL"
  }

  /** The corrected mapping agrees with `mapToBackendType` on LONG/SHORT,
      keeps BUY/SELL as they are, and its translation read back through
      `mapToFrontendType` is the position the user chose. */
  lemma {:induction false} CorrectedMappingKeepsIntent(tip: string)
    ensures tip == "LONG" || tip == "SHORT" ==> MapAnyToBackendType(tip) == MapToBackendType(tip)
    ensures tip == "BUY" || tip == "SELL" ==> MapAnyToBackendType(tip) == tip
    ensures tip == "BUY" ==> MapToFrontendType(MapAnyToBackendType(tip)) == "LONG"
    ensures tip == "SELL" ==> MapToFrontendType(MapAnyToBackendType(tip)) == "SHORT"
  {
  }
}
