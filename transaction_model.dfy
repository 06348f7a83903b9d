/**
 * The zod schemas of backend/src/models/Transaction.ts: the creation
 * schema (also used, made partial, for updates) and the response schema.
 */
module TransactionModel {
  import opened Schema

  /** `transactionSchema`. */
  const TransactionSchema: seq<Field> := [
    Field("portfolio_id", Str(1), false, false),
    Field("cryptocurrency_id", Str(1), false, false),
    Field("tip_transakcije", Enum(["BUY", "SELL"]), false, false),
    Field("kolicina", Num(true), false, false),
    Field("cijena", Num(true), false, false),
    Field("datum", Str(1), false, false),
    Field("risk_type_id", Str(0), true, true)
  ]

  /** The nested `portfolio` object of the response. */
  const PortfolioRef: seq<Field> := [
    Field("id", Str(0), false, false),
    Field("naziv", Str(0), false, false),
    Field("strategija", Str(0), true, false),
    Field("datum_kreiranja", Str(0), false, false),
    Field("created_at", Str(0), false, false),
    Field("updated_at", Str(0), false, false)
  ]

  /** The nested `cryptocurrency` object of the response. */
  const CryptocurrencyRef: seq<Field> := [
    Field("id", Str(0), false, false),
    Field("name", Str(0), false, false),
    Field("symbol", Str(0), false, false),
    Field("current_price", Num(false), false, false),
    Field("price_change_24h", Num(false), false, false),
    Field("last_updated", Str(0), false, false),
    Field("created_at", Str(0), false, false),
    Field("updated_at", Str(0), false, false)
  ]

  /** The nested `risk_type` object of the response. */
  const RiskTypeRef: seq<Field> := [
    Field("id", Str(0), false, false),
    Field("name", Str(0), false, false),
    Field("description", Str(0), true, false),
    Field("color", Str(0), true, false),
    Field("created_at", Str(0), false, false),
    Field("updated_at", Str(0), false, false)
  ]

  /** `transactionResponseSchema`. */
  const TransactionResponseSchema: seq<Field> := [
    Field("id", Str(0), false, false),
    Field("portfolio_id", Str(0), false, false),
    Field("cryptocurrency_id", Str(0), false, false),
    Field("tip_transakcije", Enum(["BUY", "SELL"]), false, false),
    Field("kolicina", Num(false), false, false),
    Field("cijena", Num(false), false, false),
    Field("datum", Str(0), false, false),
    Field("risk_type_id", Str(0), true, false),
    Field("created_at", Str(0), false, false),
    Field("updated_at", Str(0), false, false),
    Field("portfolio", Obj(PortfolioRef), false, true),
    Field("cryptocurrency", Obj(CryptocurrencyRef), false, true),
    Field("risk_type", Obj(RiskTypeRef), false, true)
  ]

  /** A creation request is accepted iff both ids and the date are non-empty
      strings, the direction is exactly "BUY" or "SELL", quantity and price
      are strictly positive numbers, and risk_type_id is absent, null or a
      string. */
  lemma TransactionSchemaMeaning(r: Record)
    ensures Conforms(TransactionSchema, r) <==>
      && IsText(r, "portfolio_id", 1)
      && IsText(r, "cryptocurrency_id", 1)
      && IsOneOf(r, "tip_transakcije", ["BUY", "SELL"])
      && IsNumber(r, "kolicina", true)
      && IsNumber(r, "cijena", true)
      && IsText(r, "datum", 1)
      && IsOptionalText(r, "risk_type_id")
  {
    ConformsIff(TransactionSchema, r);
    assert FieldOk(TransactionSchema[0], r) <==> IsText(r, "portfolio_id", 1);
    assert FieldOk(TransactionSchema[1], r) <==> IsText(r, "cryptocurrency_id", 1);
    assert FieldOk(TransactionSchema[2], r) <==> IsOneOf(r, "tip_transakcije", ["BUY", "SELL"]);
    assert FieldOk(TransactionSchema[3], r) <==> IsNumber(r, "kolicina", true);
    assert FieldOk(TransactionSchema[4], r) <==> IsNumber(r, "cijena", true);
    assert FieldOk(TransactionSchema[5], r) <==> IsText(r, "datum", 1);
    assert FieldOk(TransactionSchema[6], r) <==> IsOptionalText(r, "risk_type_id");
  }

  /** The vocabulary is exactly BUY/SELL: the frontend's "LONG" and the
      lower-case "buy" of the TypeScript interface are both rejected. */
  lemma ForeignDirectionRejected(r: Record)
    requires "tip_transakcije" in r
    requires r["tip_transakcije"] in {JStr("LONG"), JStr("SHORT"), JStr("buy"), JStr("sell")}
    ensures !Conforms(TransactionSchema, r)
  {
    TransactionSchemaMeaning(r);
  }

  /** A zero or negative quantity is rejected. */
  lemma NonPositiveQuantityRejected(r: Record)
    requires "kolicina" in r && r["kolicina"].JNum? && r["kolicina"].n <= 0.0
    ensures !Conforms(TransactionSchema, r)
  {
    TransactionSchemaMeaning(r);
  }

  /** The update schema (`transactionSchema.partial()`) accepts any subset of
      the fields, provided each present field meets its creation rule. */
  lemma TransactionPartialMeaning(r: Record)
    ensures Conforms(Partial(TransactionSchema), r) <==>
      && ("portfolio_id" in r ==> IsText(r, "portfolio_id", 1))
      && ("cryptocurrency_id" in r ==> IsText(r, "cryptocurrency_id", 1))
      && ("tip_transakcije" in r ==> IsOneOf(r, "tip_transakcije", ["BUY", "SELL"]))
      && ("kolicina" in r ==> IsNumber(r, "kolicina", true))
      && ("cijena" in r ==> IsNumber(r, "cijena", true))
      && ("datum" in r ==> IsText(r, "datum", 1))
      && IsOptionalText(r, "risk_type_id")
  {
    PartialIff(TransactionSchema, r);
    assert FieldOk(TransactionSchema[0], r) <==> IsText(r, "portfolio_id", 1);
    assert FieldOk(TransactionSchema[1], r) <==> IsText(r, "cryptocurrency_id", 1);
    assert FieldOk(TransactionSchema[2], r) <==> IsOneOf(r, "tip_transakcije", ["BUY", "SELL"]);
    assert FieldOk(TransactionSchema[3], r) <==> IsNumber(r, "kolicina", true);
    assert FieldOk(TransactionSchema[4], r) <==> IsNumber(r, "cijena", true);
    assert FieldOk(TransactionSchema[5], r) <==> IsText(r, "datum", 1);
    assert FieldOk(TransactionSchema[6], r) <==> IsOptionalText(r, "risk_type_id");
  }

  /** The response schema checks that quantity and price are numbers but not
      their sign: replacing them by any numbers keeps a response valid. */
  lemma ResponseIgnoresSign(r: Record, quantity: real, price: real)
    requires Conforms(TransactionResponseSchema, r)
    ensures Conforms(TransactionResponseSchema, r["kolicina" := JNum(quantity)]["cijena" := JNum(price)])
  {
    var r' := r["kolicina" := JNum(quantity)]["cijena" := JNum(price)];
    ConformsIff(TransactionResponseSchema, r);
    ConformsIff(TransactionResponseSchema, r');
    forall i | 0 <= i < |TransactionResponseSchema|
      ensures FieldOk(TransactionResponseSchema[i], r')
    {
      assert FieldOk(TransactionResponseSchema[i], r);
      var name := TransactionResponseSchema[i].name;
      if name != "kolicina" && name != "cijena" {
        assert name in r' <==> name in r;
        assert name in r ==> r'[name] == r[name];
      }
    }
  }
}
