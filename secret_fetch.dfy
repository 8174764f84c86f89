/**
 * `get_secret`, `secret_key_name` and `process_secret_string`
 * (lib/puppet/functions/hiera_aws_sm.rb, lines 76-131): name the secret,
 * sort what Secrets Manager answers into its four cases, and decode the
 * payload.
 */
module SecretFetch {
  import opened Results
  import opened RubyValues
  import opened LookupTypes

  /**
   * What `get_secret_value` does: raise one of the three error classes the
   * backend rescues (ResourceNotFoundException and
   * UnrecognizedClientException are both ServiceErrors, rescued before the
   * general case), or answer with a binary and/or a string payload.
   */
  datatype FetchResult =
    | ResourceNotFound
    | UnrecognizedClient
    | OtherServiceError
    | Response(secretBinary: Option<seq<bv8>>, secretString: Option<string>)

  /** Secrets Manager always sets one of the two payloads of a response. */
  type Reply = r: FetchResult | r.Response? ==> r.secretBinary.Some? || r.secretString.Some?
    witness ResourceNotFound

  function NoPermissionMessage(secretName: string): string {
    "[hiera-aws-sm] Skipping backend. No permission to access " + secretName
  }

  function FailedLookupMessage(secretName: string): string {
    "[hiera-aws-sm] Skipping backend. Failed to lookup " + secretName
  }

  /**
   * `secret_key_name` exactly as line 113 writes it: `options.prefix`
   * sends the message `prefix` to a Hash, which has no such method, so
   * every lookup with a `prefix` option raises NoMethodError. The failure
   * carries the name of the missing method.
   */
  function SecretKeyNameAsWritten(key: string, options: Options): Result<string, string> {
    if options.prefix.Some? then Failure("prefix") else Success(key)
  }

  /**
   * `secret_key_name` as its comment (lines 108-110) intends:
   * `[options['prefix'], key].join('/')` when a prefix is set, the key
   * unchanged otherwise.
   */
  function SecretKeyName(key: string, options: Options): string {
    match options.prefix
    case None => key
    case Some(p) => p + "/" + key
  }

  /**
   * Line 113 as written never produces a prefixed name: with a `prefix`
   * option it raises NoMethodError (for `prefix => 'puppet'` and key
   * `password`, instead of naming `puppet/password`); without one it agrees
   * with the intended join.
   */
  lemma AsWrittenPrefixRaisesNoMethodError(key: string, options: Options)
    ensures options.prefix.Some? ==> SecretKeyNameAsWritten(key, options) == Failure("prefix")
    ensures options.prefix.None? ==> SecretKeyNameAsWritten(key, options) == Success(SecretKeyName(key, options))
    ensures SecretKeyNameAsWritten("password", options.(prefix := Some("puppet"))).Failure?
    ensures SecretKeyName("password", options.(prefix := Some("puppet"))) == "puppet/password"
  {
  }

  /** The inverse of `SecretKeyName`: the key a secret name stands for, if any. */
  function KeyOfSecretName(secretName: string, options: Options): Option<string> {
    match options.prefix
    case None => Some(secretName)
    case Some(p) =>
      if |p| < |secretName| && secretName[..|p|] == p && secretName[|p|] == '/'
      then Some(secretName[|p| + 1..])
      else None
  }

  /** With a prefix set, the secret name is never the key itself. */
  lemma PrefixedNameDiffersFromKey(key: string, options: Options)
    requires options.prefix.Some?
    ensures SecretKeyName(key, options) != key
    ensures |SecretKeyName(key, options)| == |options.prefix.value| + 1 + |key|
  {
  }

  /** Every key is recovered from its secret name. */
  lemma SecretKeyNameRoundTrip(key: string, options: Options)
    ensures KeyOfSecretName(SecretKeyName(key, options), options) == Some(key)
  {
  }

  /** Every secret name that stands for a key is that key's name. */
  lemma KeyOfSecretNameRoundTrip(secretName: string, options: Options, key: string)
    requires KeyOfSecretName(secretName, options) == Some(key)
    ensures SecretKeyName(key, options) == secretName
  {
  }

  /** Distinct keys never share a secret under the same options. */
  lemma SecretKeyNameInjective(key1: string, key2: string, options: Options)
    requires SecretKeyName(key1, options) == SecretKeyName(key2, options)
    ensures key1 == key2
  {
    SecretKeyNameRoundTrip(key1, options);
    SecretKeyNameRoundTrip(key2, options);
  }

  /**
   * `process_secret_string`: the parsed JSON value, or the original string
   * when `JSON.parse` raises a ParserError. It never raises itself.
   */
  function ProcessSecretString(secretString: string, parseJson: string -> Option<Value>): (r: Value)
    ensures parseJson(secretString).Some? ==> parseJson(secretString) == Some(r)
    ensures parseJson(secretString).None? ==> r == Str(secretString)
  {
    match parseJson(secretString)
    case Some(v) => v
    case None => Str(secretString)
  }

  /** A secret written as the JSON text of a value reads back as that value. */
  lemma ProcessSecretStringRoundTrip(v: Value, toJson: Value -> string, parseJson: string -> Option<Value>)
    requires parseJson(toJson(v)) == Some(v)
    ensures ProcessSecretString(toJson(v), parseJson) == v
  {
  }

  /**
   * `get_secret` once the secret id is known: `nil` when the secret does
   * not exist, a LookupError naming the secret for the other two rescued
   * errors, the binary untouched when there is one, and the decoded string
   * otherwise.
   */
  function GetSecret(key: string, options: Options, parseJson: string -> Option<Value>, reply: Reply): (r: Result<Value, Error>)
    ensures r.Failure? <==> reply.UnrecognizedClient? || reply.OtherServiceError?
    ensures r.Failure? ==> r.error.LookupError?
    ensures r.Success? && r.value != Nil ==> reply.Response?
  {
    var secretName := SecretKeyName(key, options);
    match reply
    case ResourceNotFound => Success(Nil)
    case UnrecognizedClient => Failure(LookupError(NoPermissionMessage(secretName)))
    case OtherServiceError => Failure(LookupError(FailedLookupMessage(secretName)))
    case Response(secretBinary, secretString) =>
      if secretBinary.Some? then Success(Binary(secretBinary.value))
      else Success(ProcessSecretString(secretString.value, parseJson))
  }
}
