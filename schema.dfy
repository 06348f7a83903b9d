/**
 * The subset of zod's object validation that the backend models use:
 * strings with a minimum length, numbers (optionally positive), string
 * enums, nested objects, and the `.nullable()`, `.optional()` and
 * `.partial()` modifiers. A request or response body is a JSON value.
 */
module Schema {

  /** A JSON value as it reaches a zod schema. */
  datatype Value =
    | JNull
    | JBool(b: bool)
    | JNum(n: real)
    | JStr(s: string)
    | JArr(items: seq<Value>)
    | JObj(entries: map<string, Value>)

  type Record = map<string, Value>

  /** The base type of one field: `z.string().min(m)`, `z.number()` (with
      `.positive()` when `positive`), `z.enum(options)`, `z.object(fields)`. */
  datatype Rule =
    | Str(minLength: nat)
    | Num(positive: bool)
    | Enum(options: seq<string>)
    | Obj(fields: seq<Field>)

  /** One key of a `z.object`, with its `.nullable()` and `.optional()` flags. */
  datatype Field = Field(name: string, rule: Rule, nullable: bool, optional: bool)

  /** Whether zod accepts `v` for `rule`. */
  predicate ValueOk(rule: Rule, v: Value)
    decreases rule
  {
    match rule
    case Str(m) => v.JStr? && |v.s| >= m
    case Num(pos) => v.JNum? && (pos ==> v.n > 0.0)
    case Enum(opts) => v.JStr? && v.s in opts
    case Obj(fs) =>
      v.JObj? &&
      forall i :: 0 <= i < |fs| ==>
        if fs[i].name in v.entries then
          (fs[i].nullable && v.entries[fs[i].name] == JNull) || ValueOk(fs[i].rule, v.entries[fs[i].name])
        else fs[i].optional
  }

  /** Whether the key `f.name` of `r` is acceptable for `f`: absent only if
      optional, null only if nullable, otherwise a value of its rule. */
  predicate FieldOk(f: Field, r: Record)
  {
    if f.name in r then (f.nullable && r[f.name] == JNull) || ValueOk(f.rule, r[f.name])
    else f.optional
  }

  /** `z.object(fields).parse(r)` succeeds. Keys the schema does not name are
      ignored (zod strips them). */
  predicate Conforms(fields: seq<Field>, r: Record)
  {
    ValueOk(Obj(fields), JObj(r))
  }

  lemma ConformsIff(fields: seq<Field>, r: Record)
    ensures Conforms(fields, r) <==> forall i :: 0 <= i < |fields| ==> FieldOk(fields[i], r)
  {
  }

  /** `.partial()`: every top-level key becomes optional; rules are kept. */
  function Partial(fields: seq<Field>): (p: seq<Field>)
    ensures |p| == |fields|
    ensures forall i :: 0 <= i < |p| ==>
      p[i].optional && p[i].name == fields[i].name && p[i].rule == fields[i].rule && p[i].nullable == fields[i].nullable
  {
    if fields == [] then []
    else [fields[0].(optional := true)] + Partial(fields[1..])
  }

  /** A partial schema accepts a record iff every key the record carries
      that the schema names meets its rule. */
  lemma PartialIff(fields: seq<Field>, r: Record)
    ensures Conforms(Partial(fields), r) <==>
      forall i :: 0 <= i < |fields| && fields[i].name in r ==> FieldOk(fields[i], r)
  {
    var p := Partial(fields);
    ConformsIff(p, r);
    if Conforms(p, r) {
      forall i | 0 <= i < |fields| && fields[i].name in r
        ensures FieldOk(fields[i], r)
      {
        assert FieldOk(p[i], r);
      }
    }
    if forall i :: 0 <= i < |fields| && fields[i].name in r ==> FieldOk(fields[i], r) {
      forall i | 0 <= i < |p|
        ensures FieldOk(p[i], r)
      {
        if fields[i].name in r {
          assert FieldOk(fields[i], r);
        }
      }
    }
  }

  /** The empty update is accepted by every partial schema. */
  lemma PartialAcceptsEmpty(fields: seq<Field>)
    ensures Conforms(Partial(fields), map[])
  {
    PartialIff(fields, map[]);
  }

  /** Whatever the full schema accepts, its partial variant accepts too. */
  lemma FullImpliesPartial(fields: seq<Field>, r: Record)
    requires Conforms(fields, r)
    ensures Conforms(Partial(fields), r)
  {
    ConformsIff(fields, r);
    PartialIff(fields, r);
  }

  // Field-by-field readings of a record, used to state each schema's meaning
  // without going through the generic interpreter.

  /** `k` holds a string of at least `minLength` characters. */
  predicate IsText(r: Record, k: string, minLength: nat)
  {
    k in r && r[k].JStr? && |r[k].s| >= minLength
  }

  /** `k` holds a number, strictly positive when `positive`. */
  predicate IsNumber(r: Record, k: string, positive: bool)
  {
    k in r && r[k].JNum? && (positive ==> r[k].n > 0.0)
  }

  /** `k` holds one of the strings `options`. */
  predicate IsOneOf(r: Record, k: string, options: seq<string>)
  {
    k in r && r[k].JStr? && r[k].s in options
  }

  /** `k` holds a string or null. */
  predicate IsNullableText(r: Record, k: string)
  {
    k in r && (r[k] == JNull || r[k].JStr?)
  }

  /** `k` is absent, null or a string. */
  predicate IsOptionalText(r: Record, k: string)
  {
    k !in r || r[k] == JNull || r[k].JStr?
  }
}
