/**
 * `lookup_key` (lib/puppet/functions/hiera_aws_sm.rb, lines 35-61): the
 * whole backend for one key. The filter runs first; only a key it admits
 * reaches Secrets Manager; a `nil` secret then becomes either a `nil`
 * return or `context.not_found`, according to `continue_if_not_found`.
 */
module HieraAwsSm {
  import opened Results
  import opened RubyValues
  import opened Oracles
  import opened LookupTypes
  import opened KeyFilter
  import opened SecretFetch

  /** Line 57: `result.nil? and continue_if_not_found`. */
  predicate SignalsNotFound(secret: Value, options: Options) {
    secret.Nil? && Truthy(options.continueIfNotFound)
  }

  /**
   * One call of `lookup_key(key, options, context)`, where `reply` is what
   * Secrets Manager answers if it is asked. The secret id is requested
   * exactly when the filter admits the key, and it is the key's secret name.
   */
  function LookupKey(key: string, options: Options, engine: Engine, reply: Reply): (r: Resolution)
    ensures r.requested.Some? <==> Confine(engine, options.confineToKeys, key).Admit?
    ensures r.requested.Some? ==> r.requested.value == SecretKeyName(key, options)
    ensures r.requested.None? ==> !r.outcome.Returned?
  {
    match Confine(engine, options.confineToKeys, key)
    case Raise(e) => Resolution(Raised(e), None)
    case Reject => Resolution(NotFound, None)
    case Admit =>
      var outcome :=
        match GetSecret(key, options, engine.parseJson, reply)
        case Failure(e) => Raised(e)
        case Success(secret) => if SignalsNotFound(secret, options) then NotFound else Returned(secret);
      Resolution(outcome, Some(SecretKeyName(key, options)))
  }

  /**
   * A truthy `confine_to_keys` that is not an Array raises ArgumentError
   * before anything is fetched.
   */
  lemma NonArrayConfineRaisesArgumentError(key: string, options: Options, engine: Engine, reply: Reply)
    requires Truthy(options.confineToKeys) && !options.confineToKeys.Arr?
    ensures LookupKey(key, options, engine, reply)
         == Resolution(Raised(ArgumentError("[hiera-aws-sm] confine_to_keys must be an array")), None)
  {
  }

  /**
   * When the `i`-th pattern is the first that fails to compile, the lookup
   * raises a LookupError carrying that pattern's compiler message, and
   * nothing is fetched.
   */
  lemma BadPatternRaisesLookupError(key: string, options: Options, engine: Engine, reply: Reply, i: nat)
    requires options.confineToKeys.Arr?
    requires i < |options.confineToKeys.elems|
    requires engine.compileError(options.confineToKeys.elems[i]).Some?
    requires forall j :: 0 <= j < i ==> engine.compileError(options.confineToKeys.elems[j]).None?
    ensures LookupKey(key, options, engine, reply)
         == Resolution(Raised(LookupError(
              "[hiera-aws-sm] Failed to create regexp with error "
              + engine.compileError(options.confineToKeys.elems[i]).value)), None)
  {
  }

  /**
   * With every pattern compiling, a key goes to Secrets Manager exactly
   * when the first pattern that matches at its start prefers a match
   * running to its end; any other key signals `not_found` unfetched.
   */
  lemma ConfinedKeyReachesFetchIff(key: string, options: Options, engine: Engine, reply: Reply)
    requires options.confineToKeys.Arr?
    requires forall j :: 0 <= j < |options.confineToKeys.elems| ==> engine.compileError(options.confineToKeys.elems[j]).None?
    ensures var r := LookupKey(key, options, engine, reply);
      && (r.requested.Some? <==> AlternationAt(engine.preferredMatch, options.confineToKeys.elems, key, 0) == Some(|key|))
      && (r.requested.None? ==> r.outcome == NotFound)
  {
    WholeKeyIffFirstAlternativeSpansKey(engine.preferredMatch, options.confineToKeys.elems, key);
  }

  /** A key that is fetched under `confine_to_keys` matches one of its patterns in full. */
  lemma FetchedKeyMatchesSomePattern(key: string, options: Options, engine: Engine, reply: Reply)
    requires options.confineToKeys.Arr?
    requires LookupKey(key, options, engine, reply).requested.Some?
    ensures exists i :: 0 <= i < |options.confineToKeys.elems|
                     && engine.preferredMatch(options.confineToKeys.elems[i], key, 0) == Some(|key|)
  {
  }

  /** `confine_to_keys: []` turns every key away with `not_found`. */
  lemma EmptyConfineSignalsNotFound(key: string, options: Options, engine: Engine, reply: Reply)
    requires options.confineToKeys == Arr([])
    ensures LookupKey(key, options, engine, reply) == Resolution(NotFound, None)
  {
  }

  /**
   * A key the filter turns away gets the same resolution whatever
   * Secrets Manager would have answered: the store is never consulted.
   */
  lemma FilteredKeyIgnoresStore(key: string, options: Options, engine: Engine, reply1: Reply, reply2: Reply)
    requires !Confine(engine, options.confineToKeys, key).Admit?
    ensures LookupKey(key, options, engine, reply1) == LookupKey(key, options, engine, reply2)
    ensures LookupKey(key, options, engine, reply1).requested.None?
  {
  }

  /** Without a truthy `confine_to_keys`, every key is looked up under its secret name. */
  lemma AbsentConfineFetchesEveryKey(key: string, options: Options, engine: Engine, reply: Reply)
    requires !Truthy(options.confineToKeys)
    ensures LookupKey(key, options, engine, reply).requested == Some(SecretKeyName(key, options))
  {
  }

  /**
   * UnrecognizedClientException raises "No permission to access" with the
   * secret name, whatever `continue_if_not_found` says.
   */
  lemma NoPermissionRaisesRegardless(key: string, options: Options, engine: Engine)
    requires Confine(engine, options.confineToKeys, key).Admit?
    ensures LookupKey(key, options, engine, UnrecognizedClient).outcome
         == Raised(LookupError("[hiera-aws-sm] Skipping backend. No permission to access " + SecretKeyName(key, options)))
  {
  }

  /**
   * Any other ServiceError raises "Failed to lookup" with the secret name,
   * whatever `continue_if_not_found` says.
   */
  lemma ServiceErrorRaisesRegardless(key: string, options: Options, engine: Engine)
    requires Confine(engine, options.confineToKeys, key).Admit?
    ensures LookupKey(key, options, engine, OtherServiceError).outcome
         == Raised(LookupError("[hiera-aws-sm] Skipping backend. Failed to lookup " + SecretKeyName(key, options)))
  {
  }

  /**
   * A binary payload is returned as it is; the string beside it and the
   * JSON parser play no part.
   */
  lemma BinaryPayloadWins(key: string, options: Options, engine: Engine, bytes: seq<bv8>, text: Option<string>,
                          parseJson: string -> Option<Value>)
    requires Confine(engine, options.confineToKeys, key).Admit?
    ensures LookupKey(key, options, engine, Response(Some(bytes), text)).outcome == Returned(Binary(bytes))
    ensures LookupKey(key, options, engine.(parseJson := parseJson), Response(Some(bytes), text))
         == LookupKey(key, options, engine, Response(Some(bytes), text))
  {
  }

  /**
   * Without a binary, a string the parser rejects is returned unchanged,
   * and a string it accepts yields the parsed value (or `not_found` when
   * that value is JSON `null` and `continue_if_not_found` is truthy).
   */
  lemma StringPayloadDecoded(key: string, options: Options, engine: Engine, text: string)
    requires Confine(engine, options.confineToKeys, key).Admit?
    ensures var outcome := LookupKey(key, options, engine, Response(None, Some(text))).outcome;
      match engine.parseJson(text)
      case None => outcome == Returned(Str(text))
      case Some(v) => outcome == if v.Nil? && Truthy(options.continueIfNotFound) then NotFound else Returned(v)
  {
  }

  /**
   * After the fetch, `not_found` is signalled exactly when the secret is
   * `nil` and `continue_if_not_found` is truthy; otherwise the secret is
   * returned, `nil` included. Errors are raised in both modes.
   */
  lemma NotFoundAfterFetchIff(key: string, options: Options, engine: Engine, reply: Reply)
    requires Confine(engine, options.confineToKeys, key).Admit?
    ensures var outcome := LookupKey(key, options, engine, reply).outcome;
      match GetSecret(key, options, engine.parseJson, reply)
      case Failure(e) => outcome == Raised(e)
      case Success(secret) =>
        && (outcome == NotFound <==> secret.Nil? && Truthy(options.continueIfNotFound))
        && (outcome != NotFound ==> outcome == Returned(secret))
  {
  }

  /**
   * A missing secret resolves to `nil` when `continue_if_not_found` is
   * falsy and to `not_found` when it is truthy.
   */
  lemma MissingSecretByMode(key: string, options: Options, engine: Engine)
    requires Confine(engine, options.confineToKeys, key).Admit?
    ensures LookupKey(key, options, engine, ResourceNotFound).outcome
         == if Truthy(options.continueIfNotFound) then NotFound else Returned(Nil)
  {
  }

  /**
   * A secret whose string is JSON `null` cannot be told apart from a
   * missing secret: both resolve the same way in either mode.
   */
  lemma JsonNullLooksMissing(key: string, options: Options, engine: Engine, text: string)
    requires engine.parseJson(text) == Some(Nil)
    ensures LookupKey(key, options, engine, Response(None, Some(text))).outcome
         == LookupKey(key, options, engine, ResourceNotFound).outcome
  {
  }

  /**
   * Every call ends one of three ways: a configuration error before any
   * fetch, `not_found` from the filter before any fetch, or a fetch of the
   * key's secret name; never a filtered key that is also fetched.
   */
  lemma FilteredOrFetched(key: string, options: Options, engine: Engine, reply: Reply)
    ensures var r := LookupKey(key, options, engine, reply);
      || (r.requested.None? && r.outcome.Raised?)
      || (r.requested.None? && r.outcome == NotFound && Confine(engine, options.confineToKeys, key) == Reject)
      || (r.requested == Some(SecretKeyName(key, options)) && Confine(engine, options.confineToKeys, key) == Admit)
  {
  }
}
