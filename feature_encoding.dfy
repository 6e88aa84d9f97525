/**
 * get_features: turns whitespace-split sentences into fixed-length parallel
 * integer rows (input ids, segment ids, input mask, loss mask, subtokens mask
 * and, when labels are given, label ids).
 *
 * The first half of the module is the specification, as functions: the row a
 * sentence expands to before any length policy ("raw" rows), the length
 * policy (Fit) and the whole feature set (Encode). The second half is the
 * encoder itself, imperative like the original: it builds the rows with
 * appends in nested loops and then truncates or pads them in place.
 */
module FeatureEncoding {
  import opened Wrappers
  import opened Tokenization
  import opened Words

  /** The six parallel arrays returned by get_features, one row per sentence. */
  datatype Features = Features(
    inputIds: seq<seq<int>>,
    segmentIds: seq<seq<int>>,
    inputMask: seq<seq<int>>,
    lossMask: seq<seq<int>>,
    subtokensMask: seq<seq<int>>,
    labels: seq<seq<int>>)  // [] when no labels were supplied

  /** Labels supplied for training and evaluation. */
  datatype Labelling = Labelling(
    labelIds: map<string, int>,    // label string to label id
    padLabel: string,              // label of markers and padding
    rawLabels: seq<seq<string>>)   // per sentence, one label per word

  // ---------------------------------------------------------------------------
  // Specification
  // ---------------------------------------------------------------------------

  function Min(a: int, b: int): int { if a <= b then a else b }

  /** Python's list repetition `[x] * n`: empty when n is not positive. */
  function Repeat<T>(x: T, n: int): (r: seq<T>)
  {
    seq(if n < 0 then 0 else n, _ => x)
  }

  /** int(not ignore_extra_tokens): loss-mask bit of a continuation piece. */
  function ExtraBit(ignoreExtraTokens: bool): int { if ignoreExtraTokens then 0 else 1 }

  /** 1 - ignore_start_end: loss-mask bit of the [CLS] and [SEP] markers. */
  function EdgeBit(ignoreStartEnd: bool): int { if ignoreStartEnd then 0 else 1 }

  /** Loss-mask bits of one word of n pieces: 1, then the continuation bit n-1 times. */
  function WordLoss(n: int, ignoreExtraTokens: bool): seq<int>
  {
    [1] + Repeat(ExtraBit(ignoreExtraTokens), n - 1)
  }

  /** Subtokens-mask bits of one word of n pieces: 1 at its first piece only. */
  function WordStarts(n: int): seq<int>
  {
    [1] + Repeat(0, n - 1)
  }

  /** The subword pieces of the words, in order. */
  function Pieces(tok: Tokenizer, words: seq<string>): seq<string>
    decreases |words|
  {
    if words == [] then []
    else Pieces(tok, words[..|words| - 1]) + tok.textToTokens(words[|words| - 1])
  }

  /** The loss-mask bits the words append. */
  function LossBlocks(tok: Tokenizer, words: seq<string>, ignoreExtraTokens: bool): seq<int>
    decreases |words|
  {
    if words == [] then []
    else LossBlocks(tok, words[..|words| - 1], ignoreExtraTokens)
         + WordLoss(|tok.textToTokens(words[|words| - 1])|, ignoreExtraTokens)
  }

  /** The subtokens-mask bits the words append. */
  function StartBlocks(tok: Tokenizer, words: seq<string>): seq<int>
    decreases |words|
  {
    if words == [] then []
    else StartBlocks(tok, words[..|words| - 1]) + WordStarts(|tok.textToTokens(words[|words| - 1])|)
  }

  /** The label ids the words append: word j's id once per piece of word j. */
  function LabelBlocks(tok: Tokenizer, words: seq<string>, ids: seq<int>): seq<int>
    requires |ids| >= |words|
    decreases |words|
  {
    if words == [] then []
    else LabelBlocks(tok, words[..|words| - 1], ids)
         + Repeat(ids[|words| - 1], |tok.textToTokens(words[|words| - 1])|)
  }

  /** [CLS], the pieces, [SEP]. */
  function RawTokens(tok: Tokenizer, words: seq<string>): seq<string>
  {
    [tok.clsToken] + Pieces(tok, words) + [tok.sepToken]
  }

  function RawLoss(tok: Tokenizer, words: seq<string>, ignoreExtraTokens: bool, ignoreStartEnd: bool): seq<int>
  {
    [EdgeBit(ignoreStartEnd)] + LossBlocks(tok, words, ignoreExtraTokens) + [EdgeBit(ignoreStartEnd)]
  }

  function RawStarts(tok: Tokenizer, words: seq<string>): seq<int>
  {
    [0] + StartBlocks(tok, words) + [0]
  }

  function RawLabels(tok: Tokenizer, words: seq<string>, ids: seq<int>, padId: int): seq<int>
    requires |ids| >= |words|
  {
    [padId] + LabelBlocks(tok, words, ids) + [padId]
  }

  /** The labels of a sentence cover its words and are all known. */
  predicate LabelsCover(labelIds: map<string, int>, words: seq<string>, labels: seq<string>)
  {
    |labels| >= |words| && forall k :: 0 <= k < |labels| ==> labels[k] in labelIds
  }

  /** What the labelled encoding demands of its labels. */
  predicate LabellingFits(lab: Labelling, queries: seq<seq<string>>)
  {
    && lab.padLabel in lab.labelIds
    && |lab.rawLabels| >= |queries|
    && forall i :: 0 <= i < |queries| ==> LabelsCover(lab.labelIds, queries[i], lab.rawLabels[i])
  }

  /** The label ids of one sentence's labels, in order. */
  function WordLabelIds(labelIds: map<string, int>, labels: seq<string>): (ids: seq<int>)
    requires forall k :: 0 <= k < |labels| ==> labels[k] in labelIds
    ensures |ids| == |labels|
    ensures forall k :: 0 <= k < |labels| ==> ids[k] == labelIds[labels[k]]
  {
    seq(|labels|, k requires 0 <= k < |labels| => labelIds[labels[k]])
  }

  /** The label ids of sentence i. */
  function SentenceLabelIds(lab: Labelling, queries: seq<seq<string>>, i: int): (ids: seq<int>)
    requires LabellingFits(lab, queries) && 0 <= i < |queries|
    ensures |ids| >= |queries[i]|
  {
    WordLabelIds(lab.labelIds, lab.rawLabels[i])
  }

  function PadId(lab: Labelling): int
    requires lab.padLabel in lab.labelIds
  {
    lab.labelIds[lab.padLabel]
  }

  /**
   * The length policy for one row of effective length `width`: an overlong row
   * keeps its first position, replaced by `head`, and its last width-1
   * positions; a short row is right-padded with `pad`. (With width 1 the
   * original's slice `[-0:]` would keep the whole row, so width >= 2.)
   */
  function Fit<T>(s: seq<T>, width: int, head: T, pad: T): (r: seq<T>)
    requires width >= 2
    ensures |r| == width
  {
    if |s| > width then [head] + s[|s| - (width - 1)..]
    else s + Repeat(pad, width - |s|)
  }

  /** Python's max over a non-empty list. */
  function MaxOf(xs: seq<int>): (m: int)
    requires |xs| > 0
    ensures forall k :: 0 <= k < |xs| ==> xs[k] <= m
    ensures exists k :: 0 <= k < |xs| && xs[k] == m
  {
    if |xs| == 1 then xs[0]
    else
      var m := MaxOf(xs[..|xs| - 1]);
      if xs[|xs| - 1] > m then xs[|xs| - 1] else m
  }

  /** sent_lengths: the length of every raw row. */
  function RowLengths(tok: Tokenizer, queries: seq<seq<string>>): (lengths: seq<int>)
    ensures |lengths| == |queries|
  {
    seq(|queries|, i requires 0 <= i < |queries| => |RawTokens(tok, queries[i])|)
  }

  /** The effective row length: the configured one, but never beyond the longest row. */
  function EffectiveLength(tok: Tokenizer, queries: seq<seq<string>>, maxSeqLength: int): (width: int)
    requires |queries| > 0 && maxSeqLength >= 2
    ensures 2 <= width <= maxSeqLength
  {
    var lengths := RowLengths(tok, queries);
    assert lengths[0] >= 2;
    Min(maxSeqLength, MaxOf(lengths))
  }

  /** How many of the lengths exceed the width. */
  function CountAbove(lengths: seq<int>, width: int): (c: nat)
    ensures c <= |lengths|
  {
    if lengths == [] then 0
    else CountAbove(lengths[..|lengths| - 1], width) + (if lengths[|lengths| - 1] > width then 1 else 0)
  }

  lemma CountAboveStep(lengths: seq<int>, i: int, width: int)
    requires 0 <= i < |lengths|
    ensures CountAbove(lengths[..i + 1], width)
      == CountAbove(lengths[..i], width) + (if lengths[i] > width then 1 else 0)
  {
    assert lengths[..i + 1][..i] == lengths[..i];
  }

  /** too_long_count: the number of rows the length policy truncates. */
  function TooLongCount(tok: Tokenizer, queries: seq<seq<string>>, maxSeqLength: int): nat
    requires |queries| > 0 && maxSeqLength >= 2
  {
    CountAbove(RowLengths(tok, queries), EffectiveLength(tok, queries, maxSeqLength))
  }

  // The rows of sentence `words` after the length policy.

  function IdsRow(tok: Tokenizer, words: seq<string>, width: int): seq<int>
    requires width >= 2
  {
    Fit(TokensToIds(tok, RawTokens(tok, words)), width, tok.tokenToId(tok.clsToken), 0)
  }

  function InputMaskRow(tok: Tokenizer, words: seq<string>, width: int): seq<int>
    requires width >= 2
  {
    Fit(Repeat(1, |RawTokens(tok, words)|), width, 1, 0)
  }

  function LossRow(tok: Tokenizer, words: seq<string>, width: int, ignoreExtraTokens: bool, ignoreStartEnd: bool): seq<int>
    requires width >= 2
  {
    Fit(RawLoss(tok, words, ignoreExtraTokens, ignoreStartEnd), width, EdgeBit(ignoreStartEnd), 0)
  }

  function StartsRow(tok: Tokenizer, words: seq<string>, width: int): seq<int>
    requires width >= 2
  {
    Fit(RawStarts(tok, words), width, 0, 0)
  }

  function LabelsRow(tok: Tokenizer, words: seq<string>, ids: seq<int>, padId: int, width: int): seq<int>
    requires width >= 2 && |ids| >= |words|
  {
    Fit(RawLabels(tok, words, ids, padId), width, padId, padId)
  }

  /** The whole feature set get_features returns. */
  function Encode(
    queries: seq<seq<string>>, maxSeqLength: int, tok: Tokenizer,
    labelling: Option<Labelling>, ignoreExtraTokens: bool, ignoreStartEnd: bool): (f: Features)
    requires |queries| > 0 && maxSeqLength >= 2
    requires labelling.Some? ==> LabellingFits(labelling.value, queries)
    ensures |f.inputIds| == |f.segmentIds| == |f.inputMask| == |f.lossMask| == |f.subtokensMask| == |queries|
    ensures labelling.None? ==> f.labels == []
    ensures labelling.Some? ==> |f.labels| == |queries|
  {
    var n := |queries|;
    var width := EffectiveLength(tok, queries, maxSeqLength);
    Features(
      seq(n, i requires 0 <= i < n => IdsRow(tok, queries[i], width)),
      seq(n, i requires 0 <= i < n => Repeat(0, width)),
      seq(n, i requires 0 <= i < n => InputMaskRow(tok, queries[i], width)),
      seq(n, i requires 0 <= i < n => LossRow(tok, queries[i], width, ignoreExtraTokens, ignoreStartEnd)),
      seq(n, i requires 0 <= i < n => StartsRow(tok, queries[i], width)),
      match labelling
      case None => []
      case Some(lab) =>
        seq(n, i requires 0 <= i < n =>
          LabelsRow(tok, queries[i], SentenceLabelIds(lab, queries, i), PadId(lab), width)))
  }

  // ---------------------------------------------------------------------------
  // Lengths of the raw rows
  // ---------------------------------------------------------------------------

  /** When every word yields a piece, the masks and labels run in step with the pieces. */
  lemma {:induction false} BlockLengths(tok: Tokenizer, words: seq<string>, ids: seq<int>, ignoreExtraTokens: bool)
    requires SplitsWords(tok, words) && |ids| >= |words|
    ensures |LossBlocks(tok, words, ignoreExtraTokens)| == |Pieces(tok, words)|
    ensures |StartBlocks(tok, words)| == |Pieces(tok, words)|
    ensures |LabelBlocks(tok, words, ids)| == |Pieces(tok, words)|
    decreases |words|
  {
    if words != [] {
      var prefix := words[..|words| - 1];
      assert SplitsWords(tok, prefix) by {
        forall j | 0 <= j < |prefix| ensures |tok.textToTokens(prefix[j])| > 0 {
          assert prefix[j] == words[j];
        }
      }
      BlockLengths(tok, prefix, ids, ignoreExtraTokens);
      assert |tok.textToTokens(words[|words| - 1])| > 0;
    }
  }

  /** The raw rows of a sentence all have the length of its tokens. */
  lemma RawLengths(tok: Tokenizer, words: seq<string>, ids: seq<int>, padId: int, ignoreExtraTokens: bool, ignoreStartEnd: bool)
    requires SplitsWords(tok, words) && |ids| >= |words|
    ensures |RawTokens(tok, words)| == |Pieces(tok, words)| + 2
    ensures |RawLoss(tok, words, ignoreExtraTokens, ignoreStartEnd)| == |RawTokens(tok, words)|
    ensures |RawStarts(tok, words)| == |RawTokens(tok, words)|
    ensures |RawLabels(tok, words, ids, padId)| == |RawTokens(tok, words)|
  {
    BlockLengths(tok, words, ids, ignoreExtraTokens);
  }

  // ---------------------------------------------------------------------------
  // The encoder
  // ---------------------------------------------------------------------------

  /**
   * Expands one sentence into its raw rows (the first loop of get_features,
   * for one query): [CLS], each word's pieces, [SEP], with the masks and, when
   * labelled, the labels appended alongside.
   */
  method ExpandWords(
    tok: Tokenizer, words: seq<string>, withLabel: bool, queryLabels: seq<int>, padId: int,
    ignoreExtraTokens: bool, ignoreStartEnd: bool)
    returns (subtokens: seq<string>, lossMask: seq<int>, subtokensMask: seq<int>, labels: seq<int>)
    requires SplitsWords(tok, words)
    requires withLabel ==> |queryLabels| >= |words|
    ensures subtokens == RawTokens(tok, words)
    ensures lossMask == RawLoss(tok, words, ignoreExtraTokens, ignoreStartEnd)
    ensures subtokensMask == RawStarts(tok, words)
    ensures withLabel ==> labels == RawLabels(tok, words, queryLabels, padId)
  {
    subtokens := [tok.clsToken];
    lossMask := [EdgeBit(ignoreStartEnd)];
    subtokensMask := [0];
    labels := [];
    if withLabel {
      labels := [padId];
    }
    var j := 0;
    while j < |words|
      invariant 0 <= j <= |words|
      invariant subtokens == [tok.clsToken] + Pieces(tok, words[..j])
      invariant lossMask == [EdgeBit(ignoreStartEnd)] + LossBlocks(tok, words[..j], ignoreExtraTokens)
      invariant subtokensMask == [0] + StartBlocks(tok, words[..j])
      invariant withLabel ==> labels == [padId] + LabelBlocks(tok, words[..j], queryLabels)
    {
      BlocksStep(tok, words, j, queryLabels, ignoreExtraTokens);
      var wordTokens := tok.textToTokens(words[j]);
      AppendAssoc([tok.clsToken], Pieces(tok, words[..j]), wordTokens);
      AppendAssoc([EdgeBit(ignoreStartEnd)], LossBlocks(tok, words[..j], ignoreExtraTokens),
                  WordLoss(|wordTokens|, ignoreExtraTokens));
      AppendAssoc([0], StartBlocks(tok, words[..j]), WordStarts(|wordTokens|));
      if withLabel {
        AppendAssoc([padId], LabelBlocks(tok, words[..j], queryLabels), Repeat(queryLabels[j], |wordTokens|));
      }
      subtokens := subtokens + wordTokens;
      // append 1, then extend with the continuation bits
      lossMask := lossMask + ([1] + Repeat(ExtraBit(ignoreExtraTokens), |wordTokens| - 1));
      subtokensMask := subtokensMask + ([1] + Repeat(0, |wordTokens| - 1));
      if withLabel {
        labels := labels + Repeat(queryLabels[j], |wordTokens|);
      }
      j := j + 1;
    }
    assert words[..j] == words;
    subtokens := subtokens + [tok.sepToken];
    lossMask := lossMask + [EdgeBit(ignoreStartEnd)];
    subtokensMask := subtokensMask + [0];
    if withLabel {
      labels := labels + [padId];
    }
  }

  /** Regrouping one append, stated per call so the loop above need not search for it. */
  lemma AppendAssoc<T>(a: seq<T>, b: seq<T>, c: seq<T>)
    ensures (a + b) + c == a + (b + c)
  {
  }

  /** One more word extends each block sequence by that word's block. */
  lemma BlocksStep(tok: Tokenizer, words: seq<string>, j: int, ids: seq<int>, ignoreExtraTokens: bool)
    requires 0 <= j < |words|
    ensures Pieces(tok, words[..j + 1]) == Pieces(tok, words[..j]) + tok.textToTokens(words[j])
    ensures LossBlocks(tok, words[..j + 1], ignoreExtraTokens)
      == LossBlocks(tok, words[..j], ignoreExtraTokens) + WordLoss(|tok.textToTokens(words[j])|, ignoreExtraTokens)
    ensures StartBlocks(tok, words[..j + 1])
      == StartBlocks(tok, words[..j]) + WordStarts(|tok.textToTokens(words[j])|)
    ensures |ids| > j ==>
      LabelBlocks(tok, words[..j + 1], ids)
      == LabelBlocks(tok, words[..j], ids) + Repeat(ids[j], |tok.textToTokens(words[j])|)
  {
    var w := words[..j + 1];
    assert w[..|w| - 1] == words[..j];
    assert w[|w| - 1] == words[j];
  }

  /** tokens_to_ids commutes with the truncation and the padding of Fit. */
  lemma IdsOfFit(tok: Tokenizer, tokens: seq<string>, width: int)
    requires width >= 2
    ensures |tokens| > width ==>
      Fit(TokensToIds(tok, tokens), width, tok.tokenToId(tok.clsToken), 0)
        == TokensToIds(tok, [tok.clsToken] + tokens[|tokens| - (width - 1)..])
    ensures |tokens| <= width ==>
      Fit(TokensToIds(tok, tokens), width, tok.tokenToId(tok.clsToken), 0)
        == TokensToIds(tok, tokens) + Repeat(0, width - |tokens|)
  {
    if |tokens| > width {
      var cut := [tok.clsToken] + tokens[|tokens| - (width - 1)..];
      assert Fit(TokensToIds(tok, tokens), width, tok.tokenToId(tok.clsToken), 0) == TokensToIds(tok, cut);
    }
  }

  /**
   * Applies the length policy to one sentence's raw rows (one iteration of
   * the second loop of get_features). The truncation test and the amount of
   * padding are decided by the token row, as in the original.
   */
  method FitRow(
    tok: Tokenizer, width: int, withLabel: bool, padId: int, ignoreStartEnd: bool,
    subtokens: seq<string>, inputMask: seq<int>, lossMask: seq<int>, subtokensMask: seq<int>, labels: seq<int>)
    returns (inputIds: seq<int>, inputMask': seq<int>, lossMask': seq<int>, subtokensMask': seq<int>,
             labels': seq<int>, truncated: bool)
    requires width >= 2
    requires |inputMask| == |lossMask| == |subtokensMask| == |subtokens|
    requires withLabel ==> |labels| == |subtokens|
    ensures truncated <==> |subtokens| > width
    ensures inputIds == Fit(TokensToIds(tok, subtokens), width, tok.tokenToId(tok.clsToken), 0)
    ensures inputMask' == Fit(inputMask, width, 1, 0)
    ensures lossMask' == Fit(lossMask, width, EdgeBit(ignoreStartEnd), 0)
    ensures subtokensMask' == Fit(subtokensMask, width, 0, 0)
    ensures withLabel ==> labels' == Fit(labels, width, padId, padId)
  {
    IdsOfFit(tok, subtokens, width);
    var tokens := subtokens;
    inputMask', lossMask', subtokensMask', labels' := inputMask, lossMask, subtokensMask, labels;
    truncated := false;
    if |tokens| > width {
      tokens := [tok.clsToken] + tokens[|tokens| - (width - 1)..];
      inputMask' := [1] + inputMask'[|inputMask'| - (width - 1)..];
      lossMask' := [EdgeBit(ignoreStartEnd)] + lossMask'[|lossMask'| - (width - 1)..];
      subtokensMask' := [0] + subtokensMask'[|subtokensMask'| - (width - 1)..];
      if withLabel {
        labels' := [padId] + labels'[|labels'| - (width - 1)..];
      }
      truncated := true;
    }

    inputIds := TokensToIds(tok, tokens);

    if |tokens| < width {
      var extra := width - |tokens|;
      inputIds := inputIds + Repeat(0, extra);
      lossMask' := lossMask' + Repeat(0, extra);
      subtokensMask' := subtokensMask' + Repeat(0, extra);
      inputMask' := inputMask' + Repeat(0, extra);
      if withLabel {
        labels' := labels' + Repeat(padId, extra);
      }
    }
  }

  /**
   * The first loop of get_features: the raw rows of every sentence, their
   * lengths (sent_lengths) and, when labelled, the pad label's id.
   */
  method ExpandQueries(
    queries: seq<string>, ghost sentences: seq<seq<string>>, tok: Tokenizer, labelling: Option<Labelling>,
    ignoreExtraTokens: bool, ignoreStartEnd: bool)
    returns (allSubtokens: seq<seq<string>>, allInputMask: seq<seq<int>>, allLossMask: seq<seq<int>>,
             allSubtokensMask: seq<seq<int>>, allLabels: seq<seq<int>>, sentLengths: seq<int>, padId: int)
    requires |queries| > 0 && sentences == Sentences(queries)
    requires SplitsEveryWord(tok, sentences)
    requires labelling.Some? ==> LabellingFits(labelling.value, sentences)
    ensures |allSubtokens| == |allInputMask| == |allLossMask| == |allSubtokensMask| == |queries|
    ensures forall k :: 0 <= k < |queries| ==>
      && allSubtokens[k] == RawTokens(tok, sentences[k])
      && allInputMask[k] == Repeat(1, |RawTokens(tok, sentences[k])|)
      && allLossMask[k] == RawLoss(tok, sentences[k], ignoreExtraTokens, ignoreStartEnd)
      && allSubtokensMask[k] == RawStarts(tok, sentences[k])
    ensures sentLengths == RowLengths(tok, sentences)
    ensures labelling.None? ==> allLabels == []
    ensures labelling.Some? ==> padId == PadId(labelling.value) && |allLabels| == |queries|
    ensures labelling.Some? ==> forall k :: 0 <= k < |queries| ==>
      allLabels[k] == RawLabels(tok, sentences[k], SentenceLabelIds(labelling.value, sentences, k), padId)
  {
    var n := |queries|;
    allSubtokens, allInputMask, allLossMask, allSubtokensMask, allLabels, sentLengths := [], [], [], [], [], [];
    padId := 0;

    var i := 0;
    while i < n
      invariant ExpandLoop(tok, sentences, labelling, ignoreExtraTokens, ignoreStartEnd, i,
                           allSubtokens, allInputMask, allLossMask, allSubtokensMask, allLabels, sentLengths, padId)
    {
      allSubtokens, allInputMask, allLossMask, allSubtokensMask, allLabels, sentLengths, padId :=
        ExpandNext(queries, sentences, tok, labelling, ignoreExtraTokens, ignoreStartEnd, i,
                   allSubtokens, allInputMask, allLossMask, allSubtokensMask, allLabels, sentLengths, padId);
      i := i + 1;
    }
  }

  /** The state of the first loop of get_features after its first i iterations. */
  ghost predicate ExpandLoop(
    tok: Tokenizer, sentences: seq<seq<string>>, labelling: Option<Labelling>,
    ignoreExtraTokens: bool, ignoreStartEnd: bool, i: int,
    allSubtokens: seq<seq<string>>, allInputMask: seq<seq<int>>, allLossMask: seq<seq<int>>,
    allSubtokensMask: seq<seq<int>>, allLabels: seq<seq<int>>, sentLengths: seq<int>, padId: int)
  {
    && 0 <= i <= |sentences|
    && |allSubtokens| == i
    && Expanded(tok, sentences, ignoreExtraTokens, ignoreStartEnd,
                allSubtokens, allInputMask, allLossMask, allSubtokensMask, sentLengths)
    && (labelling.None? ==> allLabels == [])
    && (labelling.Some? ==>
          && LabellingFits(labelling.value, sentences)
          && (i > 0 ==> padId == PadId(labelling.value))
          && |allLabels| == i
          && forall k :: 0 <= k < i ==>
               allLabels[k] == RawLabels(tok, sentences[k], SentenceLabelIds(labelling.value, sentences, k), padId))
  }

  /**
   * One iteration of the first loop of get_features: the words of line i are
   * split into pieces and the raw rows of the sentence are appended.
   */
  method ExpandNext(
    queries: seq<string>, ghost sentences: seq<seq<string>>, tok: Tokenizer, labelling: Option<Labelling>,
    ignoreExtraTokens: bool, ignoreStartEnd: bool, i: nat,
    allSubtokens: seq<seq<string>>, allInputMask: seq<seq<int>>, allLossMask: seq<seq<int>>,
    allSubtokensMask: seq<seq<int>>, allLabels: seq<seq<int>>, sentLengths: seq<int>, padId: int)
    returns (allSubtokens': seq<seq<string>>, allInputMask': seq<seq<int>>, allLossMask': seq<seq<int>>,
             allSubtokensMask': seq<seq<int>>, allLabels': seq<seq<int>>, sentLengths': seq<int>, padId': int)
    requires sentences == Sentences(queries) && i < |queries|
    requires SplitsEveryWord(tok, sentences)
    requires labelling.Some? ==> LabellingFits(labelling.value, sentences)
    requires ExpandLoop(tok, sentences, labelling, ignoreExtraTokens, ignoreStartEnd, i,
                        allSubtokens, allInputMask, allLossMask, allSubtokensMask, allLabels, sentLengths, padId)
    ensures ExpandLoop(tok, sentences, labelling, ignoreExtraTokens, ignoreStartEnd, i + 1,
                       allSubtokens', allInputMask', allLossMask', allSubtokensMask', allLabels', sentLengths', padId')
  {
    var withLabel := labelling.Some?;
    var queryLabels: seq<int> := [];
    padId' := padId;
    if withLabel {
      padId' := labelling.value.labelIds[labelling.value.padLabel];
      queryLabels := WordLabelIds(labelling.value.labelIds, labelling.value.rawLabels[i]);
      assert queryLabels == SentenceLabelIds(labelling.value, sentences, i);
    }
    var words := LineWords(queries[i]);
    assert words == sentences[i] && SplitsWords(tok, words);
    var subtokens, lossMask, subtokensMask, labels :=
      ExpandWords(tok, words, withLabel, queryLabels, padId', ignoreExtraTokens, ignoreStartEnd);
    ExpandedStep(tok, sentences, ignoreExtraTokens, ignoreStartEnd,
                 allSubtokens, allInputMask, allLossMask, allSubtokensMask, sentLengths,
                 subtokens, lossMask, subtokensMask);
    sentLengths' := sentLengths + [|subtokens|];
    allSubtokens' := allSubtokens + [subtokens];
    allLossMask' := allLossMask + [lossMask];
    allSubtokensMask' := allSubtokensMask + [subtokensMask];
    allInputMask' := allInputMask + [Repeat(1, |subtokens|)];
    allLabels' := if withLabel then allLabels + [labels] else allLabels;
  }

  /** The raw rows made so far are those of the first sentences. */
  ghost predicate Expanded(
    tok: Tokenizer, sentences: seq<seq<string>>, ignoreExtraTokens: bool, ignoreStartEnd: bool,
    allSubtokens: seq<seq<string>>, allInputMask: seq<seq<int>>, allLossMask: seq<seq<int>>,
    allSubtokensMask: seq<seq<int>>, sentLengths: seq<int>)
  {
    && |allInputMask| == |allLossMask| == |allSubtokensMask| == |sentLengths| == |allSubtokens| <= |sentences|
    && forall k :: 0 <= k < |allSubtokens| ==>
         && allSubtokens[k] == RawTokens(tok, sentences[k])
         && allInputMask[k] == Repeat(1, |RawTokens(tok, sentences[k])|)
         && allLossMask[k] == RawLoss(tok, sentences[k], ignoreExtraTokens, ignoreStartEnd)
         && allSubtokensMask[k] == RawStarts(tok, sentences[k])
         && sentLengths[k] == |RawTokens(tok, sentences[k])|
  }

  lemma ExpandedStep(
    tok: Tokenizer, sentences: seq<seq<string>>, ignoreExtraTokens: bool, ignoreStartEnd: bool,
    allSubtokens: seq<seq<string>>, allInputMask: seq<seq<int>>, allLossMask: seq<seq<int>>,
    allSubtokensMask: seq<seq<int>>, sentLengths: seq<int>,
    subtokens: seq<string>, lossMask: seq<int>, subtokensMask: seq<int>)
    requires Expanded(tok, sentences, ignoreExtraTokens, ignoreStartEnd,
                      allSubtokens, allInputMask, allLossMask, allSubtokensMask, sentLengths)
    requires |allSubtokens| < |sentences|
    requires subtokens == RawTokens(tok, sentences[|allSubtokens|])
    requires lossMask == RawLoss(tok, sentences[|allSubtokens|], ignoreExtraTokens, ignoreStartEnd)
    requires subtokensMask == RawStarts(tok, sentences[|allSubtokens|])
    ensures Expanded(tok, sentences, ignoreExtraTokens, ignoreStartEnd,
                     allSubtokens + [subtokens], allInputMask + [Repeat(1, |subtokens|)],
                     allLossMask + [lossMask], allSubtokensMask + [subtokensMask], sentLengths + [|subtokens|])
  {
  }

  /** The raw rows of every sentence have the sentence's length (what the first loop leaves). */
  ghost predicate RawShaped(
    allSubtokens: seq<seq<string>>, sentLengths: seq<int>,
    allInputMask: seq<seq<int>>, allLossMask: seq<seq<int>>, allSubtokensMask: seq<seq<int>>, allLabels: seq<seq<int>>,
    withLabel: bool)
  {
    && |allInputMask| == |allLossMask| == |allSubtokensMask| == |sentLengths| == |allSubtokens|
    && (withLabel ==> |allLabels| == |allSubtokens|)
    && forall k :: 0 <= k < |allSubtokens| ==>
         && |allInputMask[k]| == |allLossMask[k]| == |allSubtokensMask[k]| == |allSubtokens[k]| == sentLengths[k]
         && (withLabel ==> |allLabels[k]| == |allSubtokens[k]|)
  }

  /** The state of the second loop of get_features after its first i iterations. */
  ghost predicate FitLoop(
    tok: Tokenizer, width: int, withLabel: bool, padId: int, ignoreStartEnd: bool,
    allSubtokens: seq<seq<string>>, sentLengths: seq<int>,
    rawInputMask: seq<seq<int>>, rawLossMask: seq<seq<int>>, rawSubtokensMask: seq<seq<int>>, rawLabels: seq<seq<int>>,
    i: int,
    allInputIds: seq<seq<int>>, allSegmentIds: seq<seq<int>>, allInputMask: seq<seq<int>>,
    allLossMask: seq<seq<int>>, allSubtokensMask: seq<seq<int>>, allLabels: seq<seq<int>>, tooLongCount: int)
    requires width >= 2
  {
    && 0 <= i <= |allSubtokens| == |sentLengths|
    && |allInputIds| == i
    && (!withLabel ==> allLabels == rawLabels)
    && tooLongCount == CountAbove(sentLengths[..i], width)
    && IdsFitted(tok, allInputIds, allSegmentIds, allSubtokens, width)
    && MasksFitted(allInputMask, allLossMask, allSubtokensMask, allLabels,
                   rawInputMask, rawLossMask, rawSubtokensMask, rawLabels,
                   i, width, withLabel, padId, ignoreStartEnd)
  }

  /**
   * One iteration of the second loop of get_features: row i of the masks
   * (and labels) is fitted in place, and its fitted input ids and segment
   * ids are appended.
   */
  method FitNext(
    tok: Tokenizer, width: int, withLabel: bool, padId: int, ignoreStartEnd: bool,
    allSubtokens: seq<seq<string>>, sentLengths: seq<int>,
    ghost rawInputMask: seq<seq<int>>, ghost rawLossMask: seq<seq<int>>,
    ghost rawSubtokensMask: seq<seq<int>>, ghost rawLabels: seq<seq<int>>,
    i: nat,
    allInputIds: seq<seq<int>>, allSegmentIds: seq<seq<int>>, allInputMask: seq<seq<int>>,
    allLossMask: seq<seq<int>>, allSubtokensMask: seq<seq<int>>, allLabels: seq<seq<int>>, tooLongCount: nat)
    returns (allInputIds': seq<seq<int>>, allSegmentIds': seq<seq<int>>, allInputMask': seq<seq<int>>,
             allLossMask': seq<seq<int>>, allSubtokensMask': seq<seq<int>>, allLabels': seq<seq<int>>,
             tooLongCount': nat)
    requires width >= 2 && i < |allSubtokens|
    requires RawShaped(allSubtokens, sentLengths, rawInputMask, rawLossMask, rawSubtokensMask, rawLabels, withLabel)
    requires FitLoop(tok, width, withLabel, padId, ignoreStartEnd, allSubtokens, sentLengths,
                     rawInputMask, rawLossMask, rawSubtokensMask, rawLabels, i,
                     allInputIds, allSegmentIds, allInputMask, allLossMask, allSubtokensMask, allLabels, tooLongCount)
    ensures FitLoop(tok, width, withLabel, padId, ignoreStartEnd, allSubtokens, sentLengths,
                    rawInputMask, rawLossMask, rawSubtokensMask, rawLabels, i + 1,
                    allInputIds', allSegmentIds', allInputMask', allLossMask', allSubtokensMask', allLabels', tooLongCount')
  {
    CountAboveStep(sentLengths, i, width);
    MasksAt(allInputMask, allLossMask, allSubtokensMask, allLabels,
            rawInputMask, rawLossMask, rawSubtokensMask, rawLabels,
            i, width, withLabel, padId, ignoreStartEnd);
    var rowIds, rowInputMask, rowLossMask, rowSubtokensMask, rowLabels, truncated :=
      FitRow(tok, width, withLabel, padId, ignoreStartEnd, allSubtokens[i],
             allInputMask[i], allLossMask[i], allSubtokensMask[i], if withLabel then allLabels[i] else []);
    tooLongCount' := if truncated then tooLongCount + 1 else tooLongCount;
    allInputIds' := allInputIds + [rowIds];
    allSegmentIds' := allSegmentIds + [Repeat(0, width)];
    IdsFittedStep(tok, allInputIds, allSegmentIds, allSubtokens, width, allInputIds', allSegmentIds');
    allInputMask' := allInputMask[i := rowInputMask];
    allLossMask' := allLossMask[i := rowLossMask];
    allSubtokensMask' := allSubtokensMask[i := rowSubtokensMask];
    allLabels' := if withLabel then allLabels[i := rowLabels] else allLabels;
    MasksFittedStep(allInputMask, allLossMask, allSubtokensMask, allLabels,
                    allInputMask', allLossMask', allSubtokensMask', allLabels',
                    rawInputMask, rawLossMask, rawSubtokensMask, rawLabels,
                    i, width, withLabel, padId, ignoreStartEnd);
  }

  /**
   * The second loop of get_features: every row cut to `width` or padded to
   * it, and the number of sentences longer than `width`.
   */
  method FitRows(
    tok: Tokenizer, width: int, withLabel: bool, padId: int, ignoreStartEnd: bool,
    allSubtokens: seq<seq<string>>, sentLengths: seq<int>,
    allInputMask: seq<seq<int>>, allLossMask: seq<seq<int>>, allSubtokensMask: seq<seq<int>>, allLabels: seq<seq<int>>)
    returns (allInputIds: seq<seq<int>>, allSegmentIds: seq<seq<int>>, allInputMask': seq<seq<int>>,
             allLossMask': seq<seq<int>>, allSubtokensMask': seq<seq<int>>, allLabels': seq<seq<int>>,
             tooLongCount: nat)
    requires width >= 2
    requires RawShaped(allSubtokens, sentLengths, allInputMask, allLossMask, allSubtokensMask, allLabels, withLabel)
    ensures |allInputIds| == |allSegmentIds| == |allInputMask'| == |allLossMask'| == |allSubtokensMask'| == |allSubtokens|
    ensures withLabel ==> |allLabels'| == |allSubtokens|
    ensures !withLabel ==> allLabels' == allLabels
    ensures forall k :: 0 <= k < |allSubtokens| ==>
      && allInputIds[k] == Fit(TokensToIds(tok, allSubtokens[k]), width, tok.tokenToId(tok.clsToken), 0)
      && allSegmentIds[k] == Repeat(0, width)
      && allInputMask'[k] == Fit(allInputMask[k], width, 1, 0)
      && allLossMask'[k] == Fit(allLossMask[k], width, EdgeBit(ignoreStartEnd), 0)
      && allSubtokensMask'[k] == Fit(allSubtokensMask[k], width, 0, 0)
    ensures withLabel ==> forall k :: 0 <= k < |allSubtokens| ==>
      allLabels'[k] == Fit(allLabels[k], width, padId, padId)
    ensures tooLongCount == CountAbove(sentLengths, width)
  {
    var n := |allSubtokens|;
    allInputIds, allSegmentIds := [], [];
    allInputMask', allLossMask', allSubtokensMask', allLabels' := allInputMask, allLossMask, allSubtokensMask, allLabels;
    tooLongCount := 0;

    var i := 0;
    while i < n
      invariant FitLoop(tok, width, withLabel, padId, ignoreStartEnd, allSubtokens, sentLengths,
                        allInputMask, allLossMask, allSubtokensMask, allLabels, i,
                        allInputIds, allSegmentIds, allInputMask', allLossMask', allSubtokensMask', allLabels', tooLongCount)
    {
      allInputIds, allSegmentIds, allInputMask', allLossMask', allSubtokensMask', allLabels', tooLongCount :=
        FitNext(tok, width, withLabel, padId, ignoreStartEnd, allSubtokens, sentLengths,
                allInputMask, allLossMask, allSubtokensMask, allLabels, i,
                allInputIds, allSegmentIds, allInputMask', allLossMask', allSubtokensMask', allLabels', tooLongCount);
      i := i + 1;
    }
    assert sentLengths[..n] == sentLengths;
  }

  /** The first i rows of the masks (and labels) are fitted, the others still raw. */
  ghost predicate MasksFitted(
    inputMask: seq<seq<int>>, lossMask: seq<seq<int>>, subtokensMask: seq<seq<int>>, labels: seq<seq<int>>,
    rawInputMask: seq<seq<int>>, rawLossMask: seq<seq<int>>, rawSubtokensMask: seq<seq<int>>, rawLabels: seq<seq<int>>,
    i: int, width: int, withLabel: bool, padId: int, ignoreStartEnd: bool)
    requires width >= 2
  {
    && FittedUpTo(inputMask, rawInputMask, i, width, 1, 0)
    && FittedUpTo(lossMask, rawLossMask, i, width, EdgeBit(ignoreStartEnd), 0)
    && FittedUpTo(subtokensMask, rawSubtokensMask, i, width, 0, 0)
    && (withLabel ==> FittedUpTo(labels, rawLabels, i, width, padId, padId))
  }

  /** Row i, the next to fit, is still the raw one. */
  lemma MasksAt(
    inputMask: seq<seq<int>>, lossMask: seq<seq<int>>, subtokensMask: seq<seq<int>>, labels: seq<seq<int>>,
    rawInputMask: seq<seq<int>>, rawLossMask: seq<seq<int>>, rawSubtokensMask: seq<seq<int>>, rawLabels: seq<seq<int>>,
    i: int, width: int, withLabel: bool, padId: int, ignoreStartEnd: bool)
    requires width >= 2
    requires MasksFitted(inputMask, lossMask, subtokensMask, labels, rawInputMask, rawLossMask, rawSubtokensMask,
                         rawLabels, i, width, withLabel, padId, ignoreStartEnd)
    requires i < |rawInputMask| == |rawLossMask| == |rawSubtokensMask|
    requires withLabel ==> i < |rawLabels|
    ensures inputMask[i] == rawInputMask[i] && lossMask[i] == rawLossMask[i]
    ensures subtokensMask[i] == rawSubtokensMask[i]
    ensures withLabel ==> labels[i] == rawLabels[i]
  {
  }

  lemma MasksFittedStep(
    inputMask: seq<seq<int>>, lossMask: seq<seq<int>>, subtokensMask: seq<seq<int>>, labels: seq<seq<int>>,
    inputMask': seq<seq<int>>, lossMask': seq<seq<int>>, subtokensMask': seq<seq<int>>, labels': seq<seq<int>>,
    rawInputMask: seq<seq<int>>, rawLossMask: seq<seq<int>>, rawSubtokensMask: seq<seq<int>>, rawLabels: seq<seq<int>>,
    i: int, width: int, withLabel: bool, padId: int, ignoreStartEnd: bool)
    requires width >= 2
    requires MasksFitted(inputMask, lossMask, subtokensMask, labels, rawInputMask, rawLossMask, rawSubtokensMask,
                         rawLabels, i, width, withLabel, padId, ignoreStartEnd)
    requires i < |rawInputMask| == |rawLossMask| == |rawSubtokensMask|
    requires withLabel ==> i < |rawLabels|
    requires inputMask' == inputMask[i := Fit(rawInputMask[i], width, 1, 0)]
    requires lossMask' == lossMask[i := Fit(rawLossMask[i], width, EdgeBit(ignoreStartEnd), 0)]
    requires subtokensMask' == subtokensMask[i := Fit(rawSubtokensMask[i], width, 0, 0)]
    requires labels' == if withLabel then labels[i := Fit(rawLabels[i], width, padId, padId)] else labels
    ensures MasksFitted(inputMask', lossMask', subtokensMask', labels',
                        rawInputMask, rawLossMask, rawSubtokensMask, rawLabels, i + 1, width, withLabel, padId, ignoreStartEnd)
  {
    FittedStep(inputMask, rawInputMask, i, width, 1, 0);
    FittedStep(lossMask, rawLossMask, i, width, EdgeBit(ignoreStartEnd), 0);
    FittedStep(subtokensMask, rawSubtokensMask, i, width, 0, 0);
    if withLabel {
      FittedStep(labels, rawLabels, i, width, padId, padId);
    }
  }

  /** The input ids and segment ids made so far belong to the first rows of tokens. */
  ghost predicate IdsFitted(
    tok: Tokenizer, allInputIds: seq<seq<int>>, allSegmentIds: seq<seq<int>>, allSubtokens: seq<seq<string>>, width: int)
    requires width >= 2
  {
    && |allInputIds| == |allSegmentIds| <= |allSubtokens|
    && forall k :: 0 <= k < |allInputIds| ==>
         && allInputIds[k] == Fit(TokensToIds(tok, allSubtokens[k]), width, tok.tokenToId(tok.clsToken), 0)
         && allSegmentIds[k] == Repeat(0, width)
  }

  lemma IdsFittedStep(
    tok: Tokenizer, allInputIds: seq<seq<int>>, allSegmentIds: seq<seq<int>>, allSubtokens: seq<seq<string>>,
    width: int, allInputIds': seq<seq<int>>, allSegmentIds': seq<seq<int>>)
    requires width >= 2
    requires IdsFitted(tok, allInputIds, allSegmentIds, allSubtokens, width)
    requires |allInputIds| < |allSubtokens|
    requires allInputIds' == allInputIds
      + [Fit(TokensToIds(tok, allSubtokens[|allInputIds|]), width, tok.tokenToId(tok.clsToken), 0)]
    requires allSegmentIds' == allSegmentIds + [Repeat(0, width)]
    ensures IdsFitted(tok, allInputIds', allSegmentIds', allSubtokens, width)
  {
  }

  /** The first i rows of `rows` are the fitted rows of `raw`, the others still the raw ones. */
  ghost predicate FittedUpTo<T>(rows: seq<seq<T>>, raw: seq<seq<T>>, i: int, width: int, head: T, pad: T)
    requires width >= 2
  {
    && |rows| == |raw|
    && 0 <= i <= |raw|
    && (forall k :: 0 <= k < i ==> rows[k] == Fit(raw[k], width, head, pad))
    && (forall k :: i <= k < |raw| ==> rows[k] == raw[k])
  }

  lemma FittedStep<T>(rows: seq<seq<T>>, raw: seq<seq<T>>, i: int, width: int, head: T, pad: T)
    requires width >= 2
    requires FittedUpTo(rows, raw, i, width, head, pad) && i < |raw|
    ensures rows[i] == raw[i]
    ensures FittedUpTo(rows[i := Fit(rows[i], width, head, pad)], raw, i + 1, width, head, pad)
  {
  }

  /**
   * get_features: the feature set of the sentences, and how many rows were
   * truncated. The tokenizer must give every word at least one piece, and
   * there must be at least one sentence.
   */
  method GetFeatures(
    queries: seq<string>, maxSeqLength: int, tok: Tokenizer,
    labelling: Option<Labelling>, ignoreExtraTokens: bool, ignoreStartEnd: bool)
    returns (features: Features, tooLongCount: nat)
    requires |queries| > 0 && maxSeqLength >= 2
    requires SplitsEveryWord(tok, Sentences(queries))
    requires labelling.Some? ==> LabellingFits(labelling.value, Sentences(queries))
    ensures features == Encode(Sentences(queries), maxSeqLength, tok, labelling, ignoreExtraTokens, ignoreStartEnd)
    ensures tooLongCount == TooLongCount(tok, Sentences(queries), maxSeqLength)
  {
    ghost var sentences := Sentences(queries);
    var withLabel := labelling.Some?;
    var allSubtokens, allInputMask, allLossMask, allSubtokensMask, allLabels, sentLengths, padId :=
      ExpandQueries(queries, sentences, tok, labelling, ignoreExtraTokens, ignoreStartEnd);

    var width := Min(maxSeqLength, MaxOf(sentLengths));
    assert width == EffectiveLength(tok, sentences, maxSeqLength);

    forall k | 0 <= k < |queries|
      ensures |allInputMask[k]| == |allLossMask[k]| == |allSubtokensMask[k]| == |allSubtokens[k]| == sentLengths[k]
      ensures withLabel ==> |allLabels[k]| == |allSubtokens[k]|
    {
      var ids := if withLabel then SentenceLabelIds(labelling.value, sentences, k) else Repeat(0, |sentences[k]|);
      RawLengths(tok, sentences[k], ids, padId, ignoreExtraTokens, ignoreStartEnd);
    }
    assert RawShaped(allSubtokens, sentLengths, allInputMask, allLossMask, allSubtokensMask, allLabels, withLabel);
    ghost var rawInputMask, rawLossMask, rawSubtokensMask, rawLabels := allInputMask, allLossMask, allSubtokensMask, allLabels;
    var allInputIds, allSegmentIds;
    allInputIds, allSegmentIds, allInputMask, allLossMask, allSubtokensMask, allLabels, tooLongCount :=
      FitRows(tok, width, withLabel, padId, ignoreStartEnd, allSubtokens, sentLengths,
              allInputMask, allLossMask, allSubtokensMask, allLabels);

    features := Features(allInputIds, allSegmentIds, allInputMask, allLossMask, allSubtokensMask, allLabels);
    forall k | 0 <= k < |queries|
      ensures features.inputIds[k] == IdsRow(tok, sentences[k], width)
      ensures features.segmentIds[k] == Repeat(0, width)
      ensures features.inputMask[k] == InputMaskRow(tok, sentences[k], width)
      ensures features.lossMask[k] == LossRow(tok, sentences[k], width, ignoreExtraTokens, ignoreStartEnd)
      ensures features.subtokensMask[k] == StartsRow(tok, sentences[k], width)
      ensures withLabel ==>
        features.labels[k] == LabelsRow(tok, sentences[k], SentenceLabelIds(labelling.value, sentences, k),
                                        PadId(labelling.value), width)
    {
      assert allSubtokens[k] == RawTokens(tok, sentences[k]);
      assert rawInputMask[k] == Repeat(1, |RawTokens(tok, sentences[k])|);
      assert rawLossMask[k] == RawLoss(tok, sentences[k], ignoreExtraTokens, ignoreStartEnd);
      assert rawSubtokensMask[k] == RawStarts(tok, sentences[k]);
    }
    EncodeByRows(sentences, maxSeqLength, tok, labelling, ignoreExtraTokens, ignoreStartEnd, width, features);
  }

  /** A feature set whose every row is the specified one is the specified feature set. */
  lemma EncodeByRows(
    queries: seq<seq<string>>, maxSeqLength: int, tok: Tokenizer,
    labelling: Option<Labelling>, ignoreExtraTokens: bool, ignoreStartEnd: bool, width: int, f: Features)
    requires |queries| > 0 && maxSeqLength >= 2
    requires labelling.Some? ==> LabellingFits(labelling.value, queries)
    requires width == EffectiveLength(tok, queries, maxSeqLength)
    requires |f.inputIds| == |f.segmentIds| == |f.inputMask| == |f.lossMask| == |f.subtokensMask| == |queries|
    requires labelling.None? ==> f.labels == []
    requires labelling.Some? ==> |f.labels| == |queries|
    requires forall k :: 0 <= k < |queries| ==>
      && f.inputIds[k] == IdsRow(tok, queries[k], width)
      && f.segmentIds[k] == Repeat(0, width)
      && f.inputMask[k] == InputMaskRow(tok, queries[k], width)
      && f.lossMask[k] == LossRow(tok, queries[k], width, ignoreExtraTokens, ignoreStartEnd)
      && f.subtokensMask[k] == StartsRow(tok, queries[k], width)
    requires labelling.Some? ==> forall k :: 0 <= k < |queries| ==>
      f.labels[k] == LabelsRow(tok, queries[k], SentenceLabelIds(labelling.value, queries, k), PadId(labelling.value), width)
    ensures f == Encode(queries, maxSeqLength, tok, labelling, ignoreExtraTokens, ignoreStartEnd)
  {
    var spec := Encode(queries, maxSeqLength, tok, labelling, ignoreExtraTokens, ignoreStartEnd);
    assert f.inputIds == spec.inputIds;
    assert f.segmentIds == spec.segmentIds;
    assert f.inputMask == spec.inputMask;
    assert f.lossMask == spec.lossMask;
    assert f.subtokensMask == spec.subtokensMask;
    assert f.labels == spec.labels;
  }
}
