/**
 * The zod schemas of backend/src/models/RiskType.ts. The creation schema
 * is also used, made partial, for updates.
 */
module RiskTypeModel {
  import opened Schema

  /** `riskTypeSchema`. */
  const RiskTypeSchema: seq<Field> := [
    Field("name", Str(1), false, false),
    Field("description", Str(0), true, true),
    Field("color", Str(0), true, true),
    Field("user_id", Str(1), false, false)
  ]

  /** `riskTypeResponseSchema`. */
  const RiskTypeResponseSchema: seq<Field> := [
    Field("id", Str(0), false, false),
    Field("name", Str(0), false, false),
    Field("description", Str(0), true, false),
    Field("color", Str(0), true, false),
    Field("created_at", Str(0), false, false),
    Field("updated_at", Str(0), false, false),
    Field("user_id", Str(0), false, false)
  ]

  /** A risk type is accepted iff its name and owner are non-empty strings;
      description and color may each be absent, null or any string. */
  lemma RiskTypeSchemaMeaning(r: Record)
    ensures Conforms(RiskTypeSchema, r) <==>
      && IsText(r, "name", 1)
      && IsOptionalText(r, "description")
      && IsOptionalText(r, "color")
      && IsText(r, "user_id", 1)
  {
    ConformsIff(RiskTypeSchema, r);
    assert FieldOk(RiskTypeSchema[0], r) <==> IsText(r, "name", 1);
    assert FieldOk(RiskTypeSchema[1], r) <==> IsOptionalText(r, "description");
    assert FieldOk(RiskTypeSchema[2], r) <==> IsOptionalText(r, "color");
    assert FieldOk(RiskTypeSchema[3], r) <==> IsText(r, "user_id", 1);
  }

  /** An empty name is rejected, whatever else the record holds. */
  lemma EmptyNameRejected(r: Record)
    requires "name" in r && r["name"] == JStr("")
    ensures !Conforms(RiskTypeSchema, r)
  {
    RiskTypeSchemaMeaning(r);
  }

  /** A stored risk type is read back iff id, name, created_at, updated_at
      and user_id are strings and description and color are strings or null. */
  lemma RiskTypeResponseMeaning(r: Record)
    ensures Conforms(RiskTypeResponseSchema, r) <==>
      && IsText(r, "id", 0)
      && IsText(r, "name", 0)
      && IsNullableText(r, "description")
      && IsNullableText(r, "color")
      && IsText(r, "created_at", 0)
      && IsText(r, "updated_at", 0)
      && IsText(r, "user_id", 0)
  {
    ConformsIff(RiskTypeResponseSchema, r);
    assert FieldOk(RiskTypeResponseSchema[0], r) <==> IsText(r, "id", 0);
    assert FieldOk(RiskTypeResponseSchema[1], r) <==> IsText(r, "name", 0);
    assert FieldOk(RiskTypeResponseSchema[2], r) <==> IsNullableText(r, "description");
    assert FieldOk(RiskTypeResponseSchema[3], r) <==> IsNullableText(r, "color");
    assert FieldOk(RiskTypeResponseSchema[4], r) <==> IsText(r, "created_at", 0);
    assert FieldOk(RiskTypeResponseSchema[5], r) <==> IsText(r, "updated_at", 0);
    assert FieldOk(RiskTypeResponseSchema[6], r) <==> IsText(r, "user_id", 0);
  }

  /** The update schema (`riskTypeSchema.partial()`) accepts any subset of
      the fields, each present field meeting its creation rule. */
  lemma RiskTypePartialMeaning(r: Record)
    ensures Conforms(Partial(RiskTypeSchema), r) <==>
      && ("name" in r ==> IsText(r, "name", 1))
      && IsOptionalText(r, "description")
      && IsOptionalText(r, "color")
      && ("user_id" in r ==> IsText(r, "user_id", 1))
  {
    PartialIff(RiskTypeSchema, r);
    assert FieldOk(RiskTypeSchema[0], r) <==> IsText(r, "name", 1);
    assert FieldOk(RiskTypeSchema[1], r) <==> IsOptionalText(r, "description");
    assert FieldOk(RiskTypeSchema[2], r) <==> IsOptionalText(r, "color");
    assert FieldOk(RiskTypeSchema[3], r) <==> IsText(r, "user_id", 1);
  }
}
