/**
 * How backend/src/repositories/riskTypeRepository.ts classifies the error
 * the database returns when a risk type is deleted. The delete itself is a
 * database call and is not modelled: its outcome (an error or none) is the
 * input.
 */
module RiskTypeRepository {
  import opened Wrappers

  /** The error object the database client returns (`code` and `details`
      may be missing). */
  datatype DbError = DbError(code: Option<string>, details: Option<string>, message: string)

  /** What `delete` / `deleteByUser` do: complete, throw the in-use error,
      or re-throw the database error unchanged. */
  datatype DeleteOutcome = Deleted | InUse(message: string) | Rethrown(error: DbError)

  /** PostgreSQL's code for a foreign-key violation. */
  const ForeignKeyViolationCode := "23503"

  const ForeignKeyPhrase := "violates foreign key constraint"

  const InUseMessage := "Cannot delete risk type: it is used in one or more transactions."

  /** `sub` occurs in `s` starting at index `i`. */
  predicate OccursAt(s: string, sub: string, i: int)
  {
    0 <= i <= |s| - |sub| && s[i..i + |sub|] == sub
  }

  /** JavaScript's `s.includes(sub)`. */
  predicate Contains(s: string, sub: string)
  {
    exists i :: 0 <= i <= |s| - |sub| && OccursAt(s, sub, i)
  }

  /** The test both methods apply: the foreign-key code, or details that
      mention the foreign-key phrase. */
  predicate IsForeignKeyViolation(e: DbError)
  {
    e.code == Some(ForeignKeyViolationCode) ||
    (e.details.Some? && Contains(e.details.value, ForeignKeyPhrase))
  }

  /** `delete(id)` after the database call returned `error`. */
  function Delete(error: Option<DbError>): (r: DeleteOutcome)
    ensures error.None? <==> r == Deleted
    ensures r.InUse? <==> error.Some? && IsForeignKeyViolation(error.value)
    ensures r.InUse? ==> r.message == InUseMessage
    ensures r.Rethrown? ==> error == Some(r.error)
  {
    if error.None? then Deleted
    else if error.value.code == Some(ForeignKeyViolationCode)
         || (error.value.details.Some? && Contains(error.value.details.value, ForeignKeyPhrase))
    then InUse(InUseMessage)
    else Rethrown(error.value)
  }

  /** `deleteByUser(id, userId)` after the database call returned `error`;
      the source repeats the classification of `delete`. */
  function DeleteByUser(error: Option<DbError>): (r: DeleteOutcome)
    ensures error.None? <==> r == Deleted
    ensures r.InUse? <==> error.Some? && IsForeignKeyViolation(error.value)
    ensures r.InUse? ==> r.message == InUseMessage
    ensures r.Rethrown? ==> error == Some(r.error)
  {
    match error
    case None => Deleted
    case Some(e) =>
      if e.code == Some(ForeignKeyViolationCode) then InUse(InUseMessage)
      else if e.details.Some? && Contains(e.details.value, ForeignKeyPhrase) then InUse(InUseMessage)
      else Rethrown(e)
  }

  /** Both methods classify every error the same way. */
  lemma DeleteByUserAgrees(error: Option<DbError>)
    ensures DeleteByUser(error) == Delete(error)
  {
  }

  /** Any text that embeds the phrase is recognised, so a PostgreSQL detail
      message yields the in-use error whatever the error code says. */
  lemma {:induction false} PhraseAnywhereIsInUse(prefix: string, suffix: string, code: Option<string>, message: string)
    ensures Delete(Some(DbError(code, Some(prefix + ForeignKeyPhrase + suffix), message))) == InUse(InUseMessage)
  {
    var d := prefix + ForeignKeyPhrase + suffix;
    assert d[|prefix|..|prefix| + |ForeignKeyPhrase|] == ForeignKeyPhrase;
    assert OccursAt(d, ForeignKeyPhrase, |prefix|);
  }

  /** An error with another code and no such details is re-thrown as is. */
  lemma OtherErrorsRethrown(e: DbError)
    requires e.code != Some(ForeignKeyViolationCode)
    requires e.details.None? || !Contains(e.details.value, ForeignKeyPhrase)
    ensures Delete(Some(e)) == Rethrown(e)
    ensures DeleteByUser(Some(e)) == Rethrown(e)
  {
  }
}
