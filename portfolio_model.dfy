/**
 * The zod schemas of backend/src/models/Portfolio.ts. The creation schema
 * is also used, made partial, for updates.
 */
module PortfolioModel {
  import opened Schema

  /** `portfolioSchema`. */
  const PortfolioSchema: seq<Field> := [
    Field("naziv", Str(1), false, false),
    Field("strategija", Str(0), true, true),
    Field("user_id", Str(1), false, false)
  ]

  /** `portfolioResponseSchema`. */
  const PortfolioResponseSchema: seq<Field> := [
    Field("id", Str(0), false, false),
    Field("naziv", Str(0), false, false),
    Field("strategija", Str(0), true, false),
    Field("datum_kreiranja", Str(0), false, false),
    Field("created_at", Str(0), false, false),
    Field("updated_at", Str(0), false, false),
    Field("user_id", Str(0), false, false)
  ]

  /** A portfolio is accepted iff its name and owner are non-empty strings;
      the strategy may be absent, null or any string, the empty one included. */
  lemma PortfolioSchemaMeaning(r: Record)
    ensures Conforms(PortfolioSchema, r) <==>
      IsText(r, "naziv", 1) && IsOptionalText(r, "strategija") && IsText(r, "user_id", 1)
  {
    ConformsIff(PortfolioSchema, r);
    assert FieldOk(PortfolioSchema[0], r) <==> IsText(r, "naziv", 1);
    assert FieldOk(PortfolioSchema[1], r) <==> IsOptionalText(r, "strategija");
    assert FieldOk(PortfolioSchema[2], r) <==> IsText(r, "user_id", 1);
  }

  /** A stored portfolio is read back iff id, naziv, datum_kreiranja,
      created_at, updated_at and user_id are strings (possibly empty) and
      strategija is a string or null; only strategija may be null. */
  lemma PortfolioResponseMeaning(r: Record)
    ensures Conforms(PortfolioResponseSchema, r) <==>
      && IsText(r, "id", 0)
      && IsText(r, "naziv", 0)
      && IsNullableText(r, "strategija")
      && IsText(r, "datum_kreiranja", 0)
      && IsText(r, "created_at", 0)
      && IsText(r, "updated_at", 0)
      && IsText(r, "user_id", 0)
  {
    ConformsIff(PortfolioResponseSchema, r);
    assert FieldOk(PortfolioResponseSchema[0], r) <==> IsText(r, "id", 0);
    assert FieldOk(PortfolioResponseSchema[1], r) <==> IsText(r, "naziv", 0);
    assert FieldOk(PortfolioResponseSchema[2], r) <==> IsNullableText(r, "strategija");
    assert FieldOk(PortfolioResponseSchema[3], r) <==> IsText(r, "datum_kreiranja", 0);
    assert FieldOk(PortfolioResponseSchema[4], r) <==> IsText(r, "created_at", 0);
    assert FieldOk(PortfolioResponseSchema[5], r) <==> IsText(r, "updated_at", 0);
    assert FieldOk(PortfolioResponseSchema[6], r) <==> IsText(r, "user_id", 0);
  }

  /** The update schema (`portfolioSchema.partial()`) accepts the empty
      update, but a naziv or user_id that is present must still be non-empty. */
  lemma PortfolioPartialMeaning(r: Record)
    ensures Conforms(Partial(PortfolioSchema), r) <==>
      && ("naziv" in r ==> IsText(r, "naziv", 1))
      && IsOptionalText(r, "strategija")
      && ("user_id" in r ==> IsText(r, "user_id", 1))
    ensures Conforms(Partial(PortfolioSchema), map[])
    ensures !Conforms(Partial(PortfolioSchema), map["naziv" := JStr("")])
  {
    PartialIff(PortfolioSchema, r);
    assert FieldOk(PortfolioSchema[0], r) <==> IsText(r, "naziv", 1);
    assert FieldOk(PortfolioSchema[1], r) <==> IsOptionalText(r, "strategija");
    assert FieldOk(PortfolioSchema[2], r) <==> IsText(r, "user_id", 1);
    PartialAcceptsEmpty(PortfolioSchema);
    var bad := map["naziv" := JStr("")];
    PartialIff(PortfolioSchema, bad);
    assert !FieldOk(PortfolioSchema[0], bad);
  }
}
