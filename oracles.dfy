/**
 * The parts of Ruby that the backend calls but does not implement: the
 * regular-expression compiler and matcher, and the JSON parser. They are
 * inputs of the model, so every property proved holds whatever they do,
 * as long as a match stays inside the string it was found in.
 */
module Oracles {
  import opened Results
  import opened RubyValues

  /**
   * A matcher's answers stay inside the subject: a match found at position
   * `i` of `s` ends somewhere in `i..|s|`.
   */
  ghost predicate MatchesWithinSubject(m: (Value, string, nat) -> Option<nat>) {
    forall p: Value, s: string, i: nat :: m(p, s, i).Some? ==> i <= m(p, s, i).value <= |s|
  }

  /**
   * For a compiled pattern `p`, a subject `s` and a start position `i`:
   * the end of the match that Ruby's backtracking engine prefers for `p`
   * when it is anchored at `i`, or `None` when `p` does not match at `i`.
   */
  type Matcher = m: (Value, string, nat) -> Option<nat> | MatchesWithinSubject(m)
    witness (p: Value, s: string, i: nat) => None

  /**
   * `compileError(r)` is the message of the exception `Regexp.new(r)`
   * raises, or `None` when `r` compiles; `preferredMatch` matches a
   * compiled pattern; `parseJson(s)` is `JSON.parse(s)`, or `None` when it
   * raises `JSON::ParserError`.
   */
  datatype Engine = Engine(
    compileError: Value -> Option<string>,
    preferredMatch: Matcher,
    parseJson: string -> Option<Value>)
}
