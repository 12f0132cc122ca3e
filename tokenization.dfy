/**
 * Token counting and token-bounded truncation (src/utils/tokenization.py).
 *
 * The tokenizer is an external library; here it is a pair of uninterpreted
 * functions. Nothing is assumed about them: not that decoding inverts
 * encoding, nor that a decoded prefix re-encodes to as many tokens.
 */
module Tokenization {

  /** The marker appended to truncated text. */
  const TRUNCATION_MESSAGE: string := "\n\n[Response truncated due to length]"

  /** The default token limit when `MAX_TOKENS` is not set in the environment. */
  const MAX_TOKENS: int := 20000

  datatype Tokenizer = Tokenizer(encode: string -> seq<int>, decode: seq<int> -> string)

  /** `count_tokens(text)`. */
  function CountTokens(t: Tokenizer, text: string): nat {
    |t.encode(text)|
  }

  /**
   * The length of Python's `s[:stop]`: a negative `stop` counts from the end
   * of `s`, and the result is clamped to `0..len(s)`.
   */
  function SliceStop(len: nat, stop: int): (k: nat)
    ensures k <= len
  {
    if 0 <= stop then (if stop < len then stop else len)
    else if len + stop < 0 then 0
    else len + stop
  }

  /** Python's `s[:stop]`. */
  function PrefixSlice<T>(s: seq<T>, stop: int): seq<T> {
    s[..SliceStop(|s|, stop)]
  }

  /** The tokens left for text once the marker's own tokens are reserved. */
  function AvailableTokens(t: Tokenizer, limit: int): int {
    limit - CountTokens(t, TRUNCATION_MESSAGE)
  }

  /**
   * `truncate_to_token_limit(text, limit)`: text within the limit comes back
   * unchanged; any other text comes back ending with the marker.
   */
  function TruncateToTokenLimit(t: Tokenizer, text: string, limit: int := MAX_TOKENS): (r: string)
    ensures CountTokens(t, text) <= limit ==> r == text
    ensures CountTokens(t, text) > limit ==>
      |r| >= |TRUNCATION_MESSAGE| && r[|r| - |TRUNCATION_MESSAGE|..] == TRUNCATION_MESSAGE
  {
    var tokens := t.encode(text);
    if |tokens| <= limit then text
    else
      var available := limit - |t.encode(TRUNCATION_MESSAGE)|;
      t.decode(PrefixSlice(tokens, available)) + TRUNCATION_MESSAGE
  }

  /** Text over the limit becomes the decoding of a prefix of its own tokens followed by the marker. */
  lemma TruncateAppendsMarker(t: Tokenizer, text: string, limit: int)
    requires CountTokens(t, text) > limit
    ensures exists k :: (0 <= k <= |t.encode(text)| &&
      TruncateToTokenLimit(t, text, limit) == t.decode(t.encode(text)[..k]) + TRUNCATION_MESSAGE)
  {
    var k := SliceStop(|t.encode(text)|, AvailableTokens(t, limit));
    assert TruncateToTokenLimit(t, text, limit) == t.decode(t.encode(text)[..k]) + TRUNCATION_MESSAGE;
  }

  /** With room left after the marker, exactly the first `available` tokens are kept. */
  lemma TruncateKeepsAvailablePrefix(t: Tokenizer, text: string, limit: int)
    requires CountTokens(t, text) > limit
    requires AvailableTokens(t, limit) >= 0
    ensures TruncateToTokenLimit(t, text, limit) ==
            t.decode(t.encode(text)[..AvailableTokens(t, limit)]) + TRUNCATION_MESSAGE
  {
  }

  /**
   * When the marker alone exceeds the limit, `tokens[:available]` counts from
   * the end: the last `-available` tokens are dropped (all of them if there
   * are no more), rather than none being kept.
   */
  lemma TruncateWithNegativeAvailable(t: Tokenizer, text: string, limit: int)
    requires CountTokens(t, text) > limit
    requires AvailableTokens(t, limit) < 0
    ensures var n := CountTokens(t, text) + AvailableTokens(t, limit);
      TruncateToTokenLimit(t, text, limit) ==
      t.decode(t.encode(text)[..if n < 0 then 0 else n]) + TRUNCATION_MESSAGE
  {
  }

  /** For example, a limit of 0 with a 3-token marker keeps all but the last 3 tokens of a 10-token text. */
  lemma ZeroLimitDropsTail(t: Tokenizer, text: string)
    requires CountTokens(t, TRUNCATION_MESSAGE) == 3 && CountTokens(t, text) == 10
    ensures TruncateToTokenLimit(t, text, 0) == t.decode(t.encode(text)[..7]) + TRUNCATION_MESSAGE
  {
  }

  /** A limit of 5 with a 3-token marker keeps the first 2 tokens of a 10-token text. */
  lemma FiveTokenLimitScenario(t: Tokenizer, text: string)
    requires CountTokens(t, TRUNCATION_MESSAGE) == 3 && CountTokens(t, text) == 10
    ensures TruncateToTokenLimit(t, text, 5) == t.decode(t.encode(text)[..2]) + TRUNCATION_MESSAGE
  {
  }

  /**
   * The result depends only on the tokens of `text` and of the marker and on
   * how the kept prefix decodes: two tokenizers that agree there agree on the
   * result.
   */
  lemma TruncateDependsOnlyOnTokenizer(t: Tokenizer, u: Tokenizer, text: string, limit: int)
    requires t.encode(text) == u.encode(text)
    requires t.encode(TRUNCATION_MESSAGE) == u.encode(TRUNCATION_MESSAGE)
    requires forall k :: 0 <= k <= |t.encode(text)| ==> t.decode(t.encode(text)[..k]) == u.decode(t.encode(text)[..k])
    ensures TruncateToTokenLimit(t, text, limit) == TruncateToTokenLimit(u, text, limit)
  {
  }
}
