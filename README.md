# hiera-aws-sm lookup backend, modelled in Dafny

This project models `lookup_key`, the Hiera lookup function of the
hiera-aws-sm Puppet module. It resolves a Hiera key to a secret stored in
AWS Secrets Manager, in this order:

1. The `confine_to_keys` filter. A truthy value must be an Array of
   regular expressions. The key goes on only if the leftmost match of
   `Regexp.union` of those patterns is the whole key. Any other key is
   turned away with `context.not_found`.
2. The secret name. This is the key, or `prefix/key` when a `prefix`
   option is set.
3. One `get_secret_value` call. Its answer is sorted into four cases:
   ResourceNotFound, UnrecognizedClient, any other ServiceError, or a
   response.
4. Decoding. A binary payload is returned as it is. A string is parsed as
   JSON, and the original string is kept when the parse fails.
5. The not-found policy. A `nil` secret becomes `context.not_found` when
   `continue_if_not_found` is truthy, and is returned as `nil` otherwise.

Everything is a pure function. Each raised exception and the `not_found`
non-local exit are cases of `LookupTypes.Outcome`. `LookupTypes.Resolution`
also records which secret id was requested from Secrets Manager, if any.
That makes "nothing is fetched" a statement the lemmas can prove.

Three parts of Ruby are inputs of the model (`Oracles.Engine`) instead of
being re-implemented:

- whether `Regexp.new` raises, and with which message;
- the match a single compiled pattern prefers when anchored at a position;
- `JSON.parse`.

How `Regexp.union` chooses its leftmost match is modelled on top of the
per-pattern matcher. The match starts at the leftmost position where any
pattern matches. There, the first pattern in list order that matches wins.
A consequence, proved in `KeyFilter.EarlierPatternShadowsLaterOne`:
`confine_to_keys: ['a', 'ab']` turns the key `ab` away, although `['ab']`
alone admits it.

Modules: `Results` (Option, Result), `RubyValues` (Ruby values and
truthiness), `LookupTypes` (options, errors, outcomes), `Oracles`,
`KeyFilter` (lines 36-50), `SecretFetch` (lines 76-131), `HieraAwsSm`
(`lookup_key`) and `Scenarios` (the outcomes the RSpec suite expects).

## Model

| member | source | states |
|---|---|---|
| KeyFilter.FirstSome | lib/puppet/functions/hiera_aws_sm.rb:40-45 | Fail-fast `map`, and alternation at one position. The answer is `None` exactly when every element gives `None`. Otherwise it is the answer of the first element that answers, and every earlier element gives `None`. |
| KeyFilter.FirstSomeAt | lib/puppet/functions/hiera_aws_sm.rb:40-45 | If element `i` is the first to answer, the result is element `i`'s answer. So the first pattern that fails to compile supplies the error message. |
| KeyFilter.AlternationAt | lib/puppet/functions/hiera_aws_sm.rb:45 | A match of the union anchored at `pos` ends between `pos` and the end of the key. |
| KeyFilter.LeftmostMatch | lib/puppet/functions/hiera_aws_sm.rb:45-46 | `key[Regexp.union(...)]` position: the match found starts at the leftmost position where some pattern matches, and ends where the union's alternation ends there. No earlier position matches. `None` means no position up to the end of the key matches. |
| KeyFilter.WholeKeyIffFirstAlternativeSpansKey | lib/puppet/functions/hiera_aws_sm.rb:45-46 | `key[re_match] == key` holds if and only if the first pattern matching at offset 0 prefers a match that runs to the end of the key. |
| KeyFilter.WholeKeyMatchedBySomePattern | lib/puppet/functions/hiera_aws_sm.rb:45-46 | A key the union lets through is matched from start to end by one of the patterns on its own. |
| KeyFilter.EmptyPatternListMatchesNothing | lib/puppet/functions/hiera_aws_sm.rb:45-46 | The union of no patterns matches no key. |
| KeyFilter.EarlierPatternShadowsLaterOne | lib/puppet/functions/hiera_aws_sm.rb:45-46 | With literal patterns, `['ab']` admits `ab` and `'ab'` alone matches all of `ab`. Yet `['a', 'ab']` refuses `ab`, so admission is not "some pattern matches the whole key". |
| SecretFetch.AsWrittenPrefixRaisesNoMethodError | lib/puppet/functions/hiera_aws_sm.rb:111-117 | As written, any `prefix` option makes `secret_key_name` raise NoMethodError for `prefix`. Without a prefix it agrees with the intended name. Example: `puppet` and `password` fail as written but are meant to name `puppet/password`. |
| SecretFetch.PrefixedNameDiffersFromKey | lib/puppet/functions/hiera_aws_sm.rb:111-117 | With a prefix, the secret name is one character longer than prefix plus key and is never the key itself. |
| SecretFetch.SecretKeyNameRoundTrip | lib/puppet/functions/hiera_aws_sm.rb:111-117 | The key is recovered from its secret name: without a prefix the name is the key, with one it is `prefix + "/" + key`. |
| SecretFetch.KeyOfSecretNameRoundTrip | lib/puppet/functions/hiera_aws_sm.rb:111-117 | Every secret name that stands for a key is exactly that key's secret name. Together with the round trip above, the name derivation and its inverse agree in both directions. |
| SecretFetch.SecretKeyNameInjective | lib/puppet/functions/hiera_aws_sm.rb:111-117 | Under the same options, two distinct keys never share a secret. |
| SecretFetch.ProcessSecretString | lib/puppet/functions/hiera_aws_sm.rb:121-131 | The result is the parsed value when `JSON.parse` succeeds, and the original string when it fails. It never raises. |
| SecretFetch.ProcessSecretStringRoundTrip | lib/puppet/functions/hiera_aws_sm.rb:121-131 | A secret stored as the JSON text of a value reads back as that value. |
| SecretFetch.GetSecret | lib/puppet/functions/hiera_aws_sm.rb:76-106 | It raises exactly for UnrecognizedClient and other ServiceErrors, and always as a LookupError. A non-nil secret only ever comes from a response. |
| HieraAwsSm.LookupKey | lib/puppet/functions/hiera_aws_sm.rb:35-61 | Secrets Manager is asked if and only if the filter admits the key, and then under the key's secret name. Without a request, nothing is returned: the call ends in an error or `not_found`. |
| HieraAwsSm.NonArrayConfineRaisesArgumentError | lib/puppet/functions/hiera_aws_sm.rb:37-38 | A truthy non-Array `confine_to_keys` raises ArgumentError "[hiera-aws-sm] confine_to_keys must be an array", and nothing is fetched. |
| HieraAwsSm.BadPatternRaisesLookupError | lib/puppet/functions/hiera_aws_sm.rb:40-44 | If pattern `i` is the first that fails to compile, the call raises LookupError "[hiera-aws-sm] Failed to create regexp with error " followed by that pattern's message. Nothing is fetched. |
| HieraAwsSm.ConfinedKeyReachesFetchIff | lib/puppet/functions/hiera_aws_sm.rb:45-49 | When all patterns compile, the key is fetched if and only if the first pattern matching at its start spans the whole key. Otherwise the call signals `not_found` without fetching. |
| HieraAwsSm.FetchedKeyMatchesSomePattern | lib/puppet/functions/hiera_aws_sm.rb:45-53 | A key fetched under an Array `confine_to_keys` is matched in full by one of its patterns. |
| HieraAwsSm.EmptyConfineSignalsNotFound | lib/puppet/functions/hiera_aws_sm.rb:37-49 | `confine_to_keys: []` is truthy and turns every key away with `not_found`, unfetched. |
| HieraAwsSm.FilteredKeyIgnoresStore | lib/puppet/functions/hiera_aws_sm.rb:36-50 | A key the filter does not admit resolves the same way whatever Secrets Manager would answer, and no secret id is requested. |
| HieraAwsSm.AbsentConfineFetchesEveryKey | lib/puppet/functions/hiera_aws_sm.rb:37 | With a falsy or absent `confine_to_keys`, every key is fetched under its secret name. |
| HieraAwsSm.NoPermissionRaisesRegardless | lib/puppet/functions/hiera_aws_sm.rb:89-90 | UnrecognizedClientException raises LookupError "[hiera-aws-sm] Skipping backend. No permission to access " plus the secret name, for every `continue_if_not_found`. |
| HieraAwsSm.ServiceErrorRaisesRegardless | lib/puppet/functions/hiera_aws_sm.rb:91-92 | Any other ServiceError raises LookupError "[hiera-aws-sm] Skipping backend. Failed to lookup " plus the secret name, for every `continue_if_not_found`. |
| HieraAwsSm.BinaryPayloadWins | lib/puppet/functions/hiera_aws_sm.rb:95-98 | A non-nil binary is returned unchanged. The string beside it and the JSON parser do not affect the resolution. |
| HieraAwsSm.StringPayloadDecoded | lib/puppet/functions/hiera_aws_sm.rb:99-102 | Without a binary, an unparseable string is returned unchanged and a parseable one yields the parsed value. A parsed JSON `null` under a truthy `continue_if_not_found` signals `not_found`. |
| HieraAwsSm.NotFoundAfterFetchIff | lib/puppet/functions/hiera_aws_sm.rb:53-60 | After the fetch, `not_found` is signalled if and only if the secret is `nil` and `continue_if_not_found` is truthy. Otherwise the secret is returned, `nil` included. Fetch errors propagate unchanged. |
| HieraAwsSm.MissingSecretByMode | lib/puppet/functions/hiera_aws_sm.rb:85-88 | A missing secret gives `not_found` under a truthy `continue_if_not_found`, and returns `nil` otherwise. |
| HieraAwsSm.JsonNullLooksMissing | lib/puppet/functions/hiera_aws_sm.rb:55-60 | A secret string that parses to JSON `null` resolves exactly as a missing secret does. |
| HieraAwsSm.FilteredOrFetched | lib/puppet/functions/hiera_aws_sm.rb:35-61 | Every call ends one of three ways: a configuration error before any fetch, `not_found` from the filter before any fetch, or a fetch of the key's secret name. |
| Scenarios.MissingSecretWithContinueSignalsNotFound | spec/functions/hiera_aws_sm_spec.rb:46-53 | `test_key`, ResourceNotFound and `continue_if_not_found => true` give `not_found` after one request for `test_key`. |
| Scenarios.MissingSecretWithoutContinueReturnsNil | spec/functions/hiera_aws_sm_spec.rb:54-58 | `test_key`, ResourceNotFound and no options return `nil`. |
| Scenarios.MissingPermissionsRaises | spec/functions/hiera_aws_sm_spec.rb:61-73 | UnrecognizedClientException raises "[hiera-aws-sm] Skipping backend. No permission to access test_key". |
| Scenarios.ServiceFailureRaises | spec/functions/hiera_aws_sm_spec.rb:75-87 | ServiceError raises "[hiera-aws-sm] Skipping backend. Failed to lookup test_key". |
| Scenarios.SimpleSecretIsString | spec/functions/hiera_aws_sm_spec.rb:89-108 | The secret string `password1` comes back as the String `password1`. |
| Scenarios.JsonSecretIsHash | spec/functions/hiera_aws_sm_spec.rb:110-131 | A JSON secret comes back as the Hash `{"key1" => "value1", "key2" => "value2"}`. |

## Left out

- Gem loading and its LoadError guards (lines 3-17), and the `dispatch` declaration (lines 20-24). They are plugin plumbing.
- Numeric keys, which `dispatch` accepts. The model's keys are strings, as lines 46 and 113 use them.
- The construction of the AWS client (line 78) and the remote call (line 86). The call is represented only by its answer (`SecretFetch.Reply`).
- Exceptions of the remote call other than the three rescued ServiceError cases, such as network errors.
- A response with neither a binary nor a string. `JSON.parse(nil)` would raise a TypeError there, and `SecretFetch.Reply` excludes that response.
- `context.explain` logging (lines 47, 84, 88, 97, 126). It is a side effect and does not affect control flow.
- The internals of Ruby's Regexp engine and of the JSON gem. They are the inputs in `Oracles.Engine`. Numbered back-references that refer across patterns of `Regexp.union` (group numbers shift in the union) are not modelled: each pattern is matched on its own.
- A `prefix` value other than a String. `Array#join` would render it with `to_s`. The options record carries the prefix as a string.
- The lookup context's cache and `interpolate`. The tests stub them, but `lookup_key` never calls them.
- `lib/puppet/functions/hiera_aws_secrets_manager.rb`. It declares `dispatch` only and defines no lookup logic.
- The "should run" examples (spec/functions/hiera_aws_sm_spec.rb:31-33 and spec/functions/hiera_aws_secrets_manager_spec.rb:34-36). Their answer depends on whatever AWS stub configuration an earlier example left behind.

## Findings

| source | as written | input that shows it | evidently intended | confidence | as-written member | corrected member |
|---|---|---|---|---|---|---|
| lib/puppet/functions/hiera_aws_sm.rb:113 | `[options.prefix, key].join('/')` sends `prefix` to the options Hash, which has no such method, so every lookup with a `prefix` option raises NoMethodError | options `{"prefix" => "puppet"}`, key `password` | the secret `puppet/password`, as the comment at lines 108-110 says | high; not executed | SecretFetch.AsWrittenPrefixRaisesNoMethodError | SecretFetch.SecretKeyNameRoundTrip |
