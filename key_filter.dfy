/**
 * The `confine_to_keys` filter of `lookup_key`
 * (lib/puppet/functions/hiera_aws_sm.rb, lines 36-50): decide, before any
 * secret is fetched, whether a key belongs to this backend.
 */
module KeyFilter {
  import opened Results
  import opened RubyValues
  import opened Oracles
  import opened LookupTypes

  const ArrayRequiredMessage := "[hiera-aws-sm] confine_to_keys must be an array"

  function RegexpErrorMessage(err: string): string {
    "[hiera-aws-sm] Failed to create regexp with error " + err
  }

  /**
   * The first `Some` that `f` gives along `xs`, trying the elements in
   * order. It is how `map { |r| Regexp.new(r) }` fails (on the first
   * pattern that raises) and how an alternation `r1|r2|...` matches at a
   * position (with the first alternative that matches there).
   */
  function FirstSome<T, U>(f: T -> Option<U>, xs: seq<T>): (r: Option<U>)
    ensures r.None? <==> forall i :: 0 <= i < |xs| ==> f(xs[i]).None?
    ensures r.Some? ==>
      exists i :: 0 <= i < |xs| && f(xs[i]) == r && forall j :: 0 <= j < i ==> f(xs[j]).None?
  {
    if xs == [] then None
    else if f(xs[0]).Some? then f(xs[0])
    else
      var r := FirstSome(f, xs[1..]);
      assert forall i :: 1 <= i < |xs| ==> xs[i] == xs[1..][i - 1];
      r
  }

  /** The first `Some` is the answer at the first index where `f` answers. */
  lemma FirstSomeAt<T, U>(f: T -> Option<U>, xs: seq<T>, i: nat)
    requires i < |xs| && f(xs[i]).Some?
    requires forall j :: 0 <= j < i ==> f(xs[j]).None?
    ensures FirstSome(f, xs) == f(xs[i])
  {
  }

  /**
   * Where `Regexp.union(patterns)` matches when anchored at `pos`: the end
   * of the preferred match of the first pattern that matches there.
   */
  function AlternationAt(m: Matcher, patterns: seq<Value>, key: string, pos: nat): (r: Option<nat>)
    ensures r.Some? ==> pos <= r.value <= |key|
  {
    FirstSome((p: Value) => m(p, key, pos), patterns)
  }

  /**
   * The leftmost match of `Regexp.union(patterns)` in `key` that starts at
   * `from` or later, as a (start, end) pair.
   */
  function LeftmostMatch(m: Matcher, patterns: seq<Value>, key: string, from: nat): (r: Option<(nat, nat)>)
    requires from <= |key|
    ensures r.Some? ==> from <= r.value.0 <= r.value.1 <= |key|
    ensures r.Some? ==> AlternationAt(m, patterns, key, r.value.0) == Some(r.value.1)
    ensures r.Some? ==> forall q :: from <= q < r.value.0 ==> AlternationAt(m, patterns, key, q).None?
    ensures r.None? ==> forall q :: from <= q <= |key| ==> AlternationAt(m, patterns, key, q).None?
    decreases |key| - from
  {
    match AlternationAt(m, patterns, key, from)
    case Some(e) => Some((from, e))
    case None => if from == |key| then None else LeftmostMatch(m, patterns, key, from + 1)
  }

  /** `key[Regexp.union(patterns)]`: the leftmost matched text, `None` for `nil`. */
  function MatchedText(m: Matcher, patterns: seq<Value>, key: string): (r: Option<string>)
  {
    match LeftmostMatch(m, patterns, key, 0)
    case None => None
    case Some((s, e)) => Some(key[s..e])
  }

  /** `key[re_match] == key` (line 46). */
  predicate UnionMatchesWholeKey(m: Matcher, patterns: seq<Value>, key: string) {
    MatchedText(m, patterns, key) == Some(key)
  }

  /** What the filter decides about a key. */
  datatype Verdict = Admit | Reject | Raise(error: Error)

  /** Lines 36-50 of `lookup_key`, up to (not including) the fetch. */
  function Confine(engine: Engine, confineToKeys: Value, key: string): Verdict {
    if !Truthy(confineToKeys) then Admit
    else if !confineToKeys.Arr? then Raise(ArgumentError(ArrayRequiredMessage))
    else match FirstSome(engine.compileError, confineToKeys.elems)
      case Some(err) => Raise(LookupError(RegexpErrorMessage(err)))
      case None =>
        if UnionMatchesWholeKey(engine.preferredMatch, confineToKeys.elems, key) then Admit else Reject
  }

  /**
   * The union matches the whole key exactly when the first pattern that
   * matches at the start of the key prefers a match that runs to its end:
   * a match found further right is shorter than the key, and a shorter
   * match at the start is not the key either.
   */
  lemma WholeKeyIffFirstAlternativeSpansKey(m: Matcher, patterns: seq<Value>, key: string)
    ensures UnionMatchesWholeKey(m, patterns, key) <==> AlternationAt(m, patterns, key, 0) == Some(|key|)
  {
    match AlternationAt(m, patterns, key, 0)
    case Some(e) =>
      assert LeftmostMatch(m, patterns, key, 0) == Some((0, e));
      assert |key[0..e]| == e;
      if e == |key| { assert key[0..e] == key; }
    case None =>
      match LeftmostMatch(m, patterns, key, 0)
      case None =>
      case Some((s, e)) =>
        assert s > 0;
        assert |key[s..e]| < |key|;
  }

  /**
   * A key the union lets through is matched, from its first character to
   * its last, by one of the patterns on its own.
   */
  lemma WholeKeyMatchedBySomePattern(m: Matcher, patterns: seq<Value>, key: string)
    requires UnionMatchesWholeKey(m, patterns, key)
    ensures exists i :: 0 <= i < |patterns| && m(patterns[i], key, 0) == Some(|key|)
  {
  }

  /** An empty `confine_to_keys` array is truthy and lets no key through. */
  lemma EmptyPatternListMatchesNothing(m: Matcher, key: string)
    ensures !UnionMatchesWholeKey(m, [], key)
  {
  }

  /** A matcher for patterns without metacharacters, used in the example below. */
  function LiteralMatch(p: Value, s: string, i: nat): Option<nat> {
    if p.Str? && i + |p.s| <= |s| && s[i..i + |p.s|] == p.s then Some(i + |p.s|) else None
  }

  const Literal: Matcher := LiteralMatch

  /**
   * Letting a key through is not "some pattern matches the whole key":
   * with `confine_to_keys: ['a', 'ab']` the key `ab` is refused, because
   * `/a|ab/` prefers `a` at the start, although `['ab']` alone admits it.
   */
  lemma EarlierPatternShadowsLaterOne()
    ensures UnionMatchesWholeKey(Literal, [Str("ab")], "ab")
    ensures Literal(Str("ab"), "ab", 0) == Some(|"ab"|)
    ensures !UnionMatchesWholeKey(Literal, [Str("a"), Str("ab")], "ab")
  {
  }
}
