/** The immutable record every resolution returns (`EnjsonTranslationResult`). */
module Results {
  import opened Wrappers
  import opened Text

  /** A translation result. Datatype values cannot be changed after they are
      built, as the get-only properties of the source record promise. */
  datatype TranslationResult = TranslationResult(
    key: string,
    value: Option<string>,
    found: bool,
    errorCode: Option<string>
  )

  /** The record's constructor; the error code is optional and defaults to null. */
  function NewResult(key: string, value: Option<string>, found: bool, errorCode: Option<string> := None)
    : (r: TranslationResult)
    ensures r.key == key && r.value == value
    ensures r.found == found
    ensures r.errorCode == errorCode
  {
    TranslationResult(key, value, found, errorCode)
  }

  /** The shape every result of a resolution has: a found result carries a
      non-blank value, a missing one carries none, and an error code only
      accompanies a miss. */
  predicate WellFormed(r: TranslationResult) {
    && (r.found ==> r.value.Some? && !IsBlank(r.value.value))
    && (!r.found ==> r.value.None?)
    && (r.errorCode.Some? ==> !r.found)
  }
}
