/**
 * The subword tokenizer is an external capability of the feature encoder.
 * Its splitting and id lookup are uninterpreted functions supplied by the
 * caller; only the marker tokens and the identity used in the cache key are
 * data.
 */
module Tokenization {
  import opened Wrappers

  datatype Tokenizer = Tokenizer(
    textToTokens: string -> seq<string>,  // one word to its subword pieces
    tokenToId: string -> int,             // one piece to its vocabulary id
    clsToken: string,                     // sentence-start marker
    sepToken: string,                     // sentence-end marker
    typeName: string,                     // class name of the wrapped tokenizer
    vocabSize: Option<int>)               // vocab_size, when the tokenizer has one

  /** tokens_to_ids: an element-wise, length-preserving map. */
  function TokensToIds(tok: Tokenizer, tokens: seq<string>): (ids: seq<int>)
    ensures |ids| == |tokens|
    ensures forall k :: 0 <= k < |tokens| ==> ids[k] == tok.tokenToId(tokens[k])
  {
    seq(|tokens|, k requires 0 <= k < |tokens| => tok.tokenToId(tokens[k]))
  }

  /** Every word of the sentence yields at least one subword piece. */
  predicate SplitsWords(tok: Tokenizer, words: seq<string>)
  {
    forall j :: 0 <= j < |words| ==> |tok.textToTokens(words[j])| > 0
  }

  /** Every word of every sentence yields at least one subword piece. */
  predicate SplitsEveryWord(tok: Tokenizer, queries: seq<seq<string>>)
  {
    forall i :: 0 <= i < |queries| ==> SplitsWords(tok, queries[i])
  }

  /** getattr(tokenizer, "vocab_size", 0). */
  function VocabSize(tok: Tokenizer): int
  {
    match tok.vocabSize
    case None => 0
    case Some(v) => v
  }
}
