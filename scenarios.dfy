/**
 * The outcomes spec/functions/hiera_aws_sm_spec.rb expects of
 * `lookup_key('test_key', options, context)`, stated for every regex
 * engine and for every JSON parser that agrees with the parse the test
 * relies on.
 */
module Scenarios {
  import opened Results
  import opened RubyValues
  import opened Oracles
  import opened LookupTypes
  import opened SecretFetch
  import opened HieraAwsSm

  const NoOptions := Options(Nil, None, Nil)
  const ContinueIfNotFound := Options(Nil, None, Bool(true))

  /** A missing secret with `continue_if_not_found => true` throws `:no_such_key`. */
  lemma MissingSecretWithContinueSignalsNotFound(engine: Engine)
    ensures LookupKey("test_key", ContinueIfNotFound, engine, ResourceNotFound) == Resolution(NotFound, Some("test_key"))
  {
  }

  /** A missing secret without options returns `nil`. */
  lemma MissingSecretWithoutContinueReturnsNil(engine: Engine)
    ensures LookupKey("test_key", NoOptions, engine, ResourceNotFound) == Resolution(Returned(Nil), Some("test_key"))
  {
  }

  /** UnrecognizedClientException raises the "No permission" LookupError. */
  lemma MissingPermissionsRaises(engine: Engine)
    ensures LookupKey("test_key", NoOptions, engine, UnrecognizedClient).outcome
         == Raised(LookupError("[hiera-aws-sm] Skipping backend. No permission to access test_key"))
  {
  }

  /** A generic ServiceError raises the "Failed to lookup" LookupError. */
  lemma ServiceFailureRaises(engine: Engine)
    ensures LookupKey("test_key", NoOptions, engine, OtherServiceError).outcome
         == Raised(LookupError("[hiera-aws-sm] Skipping backend. Failed to lookup test_key"))
  {
  }

  /** A plain secret string comes back as that String. */
  lemma SimpleSecretIsString(engine: Engine)
    requires engine.parseJson("password1").None?
    ensures LookupKey("test_key", NoOptions, engine, Response(None, Some("password1"))).outcome
         == Returned(Str("password1"))
  {
  }

  const JsonSecret := "{\"key1\": \"value1\", \"key2\": \"value2\"}"
  const JsonSecretHash := Hash([("key1", Str("value1")), ("key2", Str("value2"))])

  /** A JSON-encoded secret comes back as the Hash it encodes. */
  lemma JsonSecretIsHash(engine: Engine)
    requires engine.parseJson(JsonSecret) == Some(JsonSecretHash)
    ensures LookupKey("test_key", NoOptions, engine, Response(None, Some(JsonSecret))).outcome
         == Returned(JsonSecretHash)
  {
  }
}
