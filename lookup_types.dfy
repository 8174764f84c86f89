/**
 * What a lookup takes and what it produces: the options record, the
 * exceptions raised, and the outcome handed back to Hiera.
 */
module LookupTypes {
  import opened Results
  import opened RubyValues

  /**
   * The three entries of the Hiera options Hash that the backend reads.
   * `confineToKeys` and `continueIfNotFound` are `options[...]` as Ruby
   * sees them (`Nil` when the entry is absent), so any Ruby value may
   * appear there; `prefix` is `Some` exactly when `options.key?('prefix')`.
   */
  datatype Options = Options(
    confineToKeys: Value,
    prefix: Option<string>,
    continueIfNotFound: Value)

  /** The exceptions `lookup_key` lets escape to Hiera. */
  datatype Error =
    | ArgumentError(message: string)
    | LookupError(message: string)

  /**
   * How one call of `lookup_key` ends: it returns a value (possibly `nil`),
   * it calls `context.not_found` (a non-local exit out of the backend), or
   * it raises.
   */
  datatype Outcome =
    | Returned(value: Value)
    | NotFound
    | Raised(error: Error)

  /**
   * The outcome together with the secret id passed to
   * `get_secret_value`, or `None` when the secret store was never asked.
   */
  datatype Resolution = Resolution(outcome: Outcome, requested: Option<string>)
}
