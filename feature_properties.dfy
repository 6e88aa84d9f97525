/**
 * What get_features promises about the rows it returns, proved of the
 * specification Encode (and so, through GetFeatures' postcondition, of the
 * encoder): shape, alignment of the subtokens mask with the words, the loss
 * mask and label policy, truncation from the front, padding, and the count
 * of truncated rows.
 */
module FeatureProperties {
  import opened Wrappers
  import opened Tokenization
  import opened FeatureEncoding

  /** The number of positions holding 1. */
  function Ones(s: seq<int>): nat
  {
    if s == [] then 0 else Ones(s[..|s| - 1]) + (if s[|s| - 1] == 1 then 1 else 0)
  }

  /**
   * Six parallel arrays with one row per sentence, all rows of one width,
   * all-zero segment ids, and labels present exactly when `labelled`.
   */
  predicate WellFormed(f: Features, labelled: bool)
  {
    var n := |f.inputIds|;
    var width := if n == 0 then 0 else |f.inputIds[0]|;
    && |f.segmentIds| == n && |f.inputMask| == n && |f.lossMask| == n && |f.subtokensMask| == n
    && (if labelled then |f.labels| == n else f.labels == [])
    && (forall i :: 0 <= i < n ==>
          && |f.inputIds[i]| == width && |f.segmentIds[i]| == width && |f.inputMask[i]| == width
          && |f.lossMask[i]| == width && |f.subtokensMask[i]| == width
          && (labelled ==> |f.labels[i]| == width))
    && (forall i, k :: 0 <= i < n && 0 <= k < |f.segmentIds[i]| ==> f.segmentIds[i][k] == 0)
  }

  // ---------------------------------------------------------------------------
  // Helpers on the building blocks
  // ---------------------------------------------------------------------------

  lemma SplitsPrefix(tok: Tokenizer, words: seq<string>, m: int)
    requires SplitsWords(tok, words) && 0 <= m <= |words|
    ensures SplitsWords(tok, words[..m])
  {
    forall j | 0 <= j < m ensures |tok.textToTokens(words[..m][j])| > 0 {
      assert words[..m][j] == words[j];
    }
  }

  lemma {:induction false} OnesConcat(a: seq<int>, b: seq<int>)
    ensures Ones(a + b) == Ones(a) + Ones(b)
    decreases |b|
  {
    if b == [] {
      assert a + b == a;
    } else {
      var b' := b[..|b| - 1];
      assert (a + b)[..|a + b| - 1] == a + b';
      OnesConcat(a, b');
    }
  }

  lemma {:induction false} OnesOfZeros(n: int)
    ensures Ones(Repeat(0, n)) == 0
    decreases if n < 0 then 0 else n
  {
    if n > 0 {
      assert Repeat(0, n)[..n - 1] == Repeat(0, n - 1);
      OnesOfZeros(n - 1);
    }
  }

  /** Every word contributes exactly one 1 to the subtokens mask. */
  lemma {:induction false} StartBlocksOnes(tok: Tokenizer, words: seq<string>)
    ensures Ones(StartBlocks(tok, words)) == |words|
    decreases |words|
  {
    if words != [] {
      var prefix := words[..|words| - 1];
      var n := |tok.textToTokens(words[|words| - 1])|;
      StartBlocksOnes(tok, prefix);
      OnesConcat(StartBlocks(tok, prefix), WordStarts(n));
      OnesConcat([1], Repeat(0, n - 1));
      OnesOfZeros(n - 1);
      assert Ones([1]) == Ones([]) + 1 by { assert [1][..0] == []; }
    }
  }

  /**
   * Piece t of word j sits at offset |Pieces(words[..j])| + t of the blocks:
   * there the subtokens mask is 1 exactly for the first piece, the loss mask
   * is 1 for the first piece and the continuation bit for the others, and the
   * label is word j's label.
   */
  lemma {:induction false} BlockAt(
    tok: Tokenizer, words: seq<string>, ids: seq<int>, ignoreExtraTokens: bool, j: int, t: int)
    requires SplitsWords(tok, words) && |ids| >= |words|
    requires 0 <= j < |words| && 0 <= t < |tok.textToTokens(words[j])|
    ensures |LossBlocks(tok, words, ignoreExtraTokens)| == |StartBlocks(tok, words)| == |Pieces(tok, words)|
    ensures |LabelBlocks(tok, words, ids)| == |Pieces(tok, words)|
    ensures |Pieces(tok, words[..j])| + t < |Pieces(tok, words)|
    ensures var p := |Pieces(tok, words[..j])| + t;
      && Pieces(tok, words)[p] == tok.textToTokens(words[j])[t]
      && StartBlocks(tok, words)[p] == (if t == 0 then 1 else 0)
      && LossBlocks(tok, words, ignoreExtraTokens)[p] == (if t == 0 then 1 else ExtraBit(ignoreExtraTokens))
      && LabelBlocks(tok, words, ids)[p] == ids[j]
    decreases |words|
  {
    BlockLengths(tok, words, ids, ignoreExtraTokens);
    var m := |words| - 1;
    var prefix := words[..m];
    SplitsPrefix(tok, words, m);
    BlockLengths(tok, prefix, ids, ignoreExtraTokens);
    if j == m {
      assert prefix == words[..j];
    } else {
      BlockAt(tok, prefix, ids, ignoreExtraTokens, j, t);
      assert prefix[..j] == words[..j];
      assert prefix[j] == words[j];
    }
  }

  /** An overlong row keeps `head` and then its last width-1 positions. */
  lemma FitLong<T>(s: seq<T>, width: int, head: T, pad: T)
    requires width >= 2 && |s| > width
    ensures Fit(s, width, head, pad)[0] == head
    ensures forall k :: 1 <= k < width ==> Fit(s, width, head, pad)[k] == s[k + |s| - width]
  {
  }

  /** A row that fits keeps its positions and is padded after them. */
  lemma FitShort<T>(s: seq<T>, width: int, head: T, pad: T)
    requires width >= 2 && |s| <= width
    ensures forall k :: 0 <= k < |s| ==> Fit(s, width, head, pad)[k] == s[k]
    ensures forall k :: |s| <= k < width ==> Fit(s, width, head, pad)[k] == pad
  {
  }

  // ---------------------------------------------------------------------------
  // The feature set and its rows
  // ---------------------------------------------------------------------------

  /**
   * Every sentence is encoded on its own: row i of each array depends only on
   * sentence i (and its labels) and on the common effective length.
   */
  lemma EncodeRowAt(
    queries: seq<seq<string>>, maxSeqLength: int, tok: Tokenizer,
    labelling: Option<Labelling>, ignoreExtraTokens: bool, ignoreStartEnd: bool, i: int)
    requires |queries| > 0 && maxSeqLength >= 2
    requires labelling.Some? ==> LabellingFits(labelling.value, queries)
    requires 0 <= i < |queries|
    ensures var f := Encode(queries, maxSeqLength, tok, labelling, ignoreExtraTokens, ignoreStartEnd);
      var width := EffectiveLength(tok, queries, maxSeqLength);
      && f.inputIds[i] == IdsRow(tok, queries[i], width)
      && f.segmentIds[i] == Repeat(0, width)
      && f.inputMask[i] == InputMaskRow(tok, queries[i], width)
      && f.lossMask[i] == LossRow(tok, queries[i], width, ignoreExtraTokens, ignoreStartEnd)
      && f.subtokensMask[i] == StartsRow(tok, queries[i], width)
      && (labelling.Some? ==>
            f.labels[i] == LabelsRow(tok, queries[i], SentenceLabelIds(labelling.value, queries, i),
                                     PadId(labelling.value), width))
  {
  }

  /**
   * Output shape: one row per sentence in every array, each of the effective
   * length min(max_seq_length, longest raw row), segment ids all zero.
   */
  lemma EncodeShape(
    queries: seq<seq<string>>, maxSeqLength: int, tok: Tokenizer,
    labelling: Option<Labelling>, ignoreExtraTokens: bool, ignoreStartEnd: bool)
    requires |queries| > 0 && maxSeqLength >= 2
    requires labelling.Some? ==> LabellingFits(labelling.value, queries)
    ensures var f := Encode(queries, maxSeqLength, tok, labelling, ignoreExtraTokens, ignoreStartEnd);
      var width := EffectiveLength(tok, queries, maxSeqLength);
      && width == Min(maxSeqLength, MaxOf(RowLengths(tok, queries)))
      && WellFormed(f, labelling.Some?)
      && forall i :: 0 <= i < |queries| ==> |f.inputIds[i]| == width
  {
    var f := Encode(queries, maxSeqLength, tok, labelling, ignoreExtraTokens, ignoreStartEnd);
    var width := EffectiveLength(tok, queries, maxSeqLength);
    forall i | 0 <= i < |queries|
      ensures |f.inputIds[i]| == |f.segmentIds[i]| == |f.inputMask[i]| == width
      ensures |f.lossMask[i]| == |f.subtokensMask[i]| == width
      ensures labelling.Some? ==> |f.labels[i]| == width
      ensures forall k :: 0 <= k < |f.segmentIds[i]| ==> f.segmentIds[i][k] == 0
    {
      EncodeRowAt(queries, maxSeqLength, tok, labelling, ignoreExtraTokens, ignoreStartEnd, i);
    }
    assert |f.inputIds[0]| == width;
  }

  /**
   * The layout of a row that was not truncated: [CLS] first and [SEP] last
   * (both with subtokens-mask 0, the start/end loss bit and the pad label),
   * zeros and pad labels after them, and exactly one subtokens-mask 1 per word.
   */
  lemma UntruncatedRowLayout(
    tok: Tokenizer, words: seq<string>, ids: seq<int>, padId: int, width: int,
    ignoreExtraTokens: bool, ignoreStartEnd: bool)
    requires SplitsWords(tok, words) && |ids| >= |words|
    requires 2 <= |RawTokens(tok, words)| <= width
    ensures var last := |RawTokens(tok, words)| - 1;
      && IdsRow(tok, words, width)[0] == tok.tokenToId(tok.clsToken)
      && IdsRow(tok, words, width)[last] == tok.tokenToId(tok.sepToken)
      && StartsRow(tok, words, width)[0] == 0 && StartsRow(tok, words, width)[last] == 0
      && LossRow(tok, words, width, ignoreExtraTokens, ignoreStartEnd)[0] == EdgeBit(ignoreStartEnd)
      && LossRow(tok, words, width, ignoreExtraTokens, ignoreStartEnd)[last] == EdgeBit(ignoreStartEnd)
      && LabelsRow(tok, words, ids, padId, width)[0] == padId
      && LabelsRow(tok, words, ids, padId, width)[last] == padId
      && (forall k :: last < k < width ==>
            && IdsRow(tok, words, width)[k] == 0 && InputMaskRow(tok, words, width)[k] == 0
            && LossRow(tok, words, width, ignoreExtraTokens, ignoreStartEnd)[k] == 0
            && StartsRow(tok, words, width)[k] == 0
            && LabelsRow(tok, words, ids, padId, width)[k] == padId)
      && Ones(StartsRow(tok, words, width)) == |words|
  {
    var raw := RawTokens(tok, words);
    var n := |raw|;
    RawLengths(tok, words, ids, padId, ignoreExtraTokens, ignoreStartEnd);
    FitShort(TokensToIds(tok, raw), width, tok.tokenToId(tok.clsToken), 0);
    FitShort(Repeat(1, n), width, 1, 0);
    FitShort(RawLoss(tok, words, ignoreExtraTokens, ignoreStartEnd), width, EdgeBit(ignoreStartEnd), 0);
    FitShort(RawStarts(tok, words), width, 0, 0);
    FitShort(RawLabels(tok, words, ids, padId), width, padId, padId);
    var blocks := StartBlocks(tok, words);
    assert StartsRow(tok, words, width) == [0] + blocks + [0] + Repeat(0, width - n);
    StartBlocksOnes(tok, words);
    OnesConcat([0] + blocks + [0], Repeat(0, width - n));
    OnesConcat([0] + blocks, [0]);
    OnesConcat([0], blocks);
    OnesOfZeros(width - n);
    assert Ones([0]) == 0 by { assert [0][..0] == []; }
  }

  /**
   * Alignment in a row that was not truncated: piece t of word j sits at
   * position 1 + (pieces of the earlier words) + t. There the input id is the
   * piece's id, the input mask 1, the subtokens mask 1 for the first piece and
   * 0 for the others, the loss mask 1 for the first piece and
   * int(not ignore_extra_tokens) for the others, and every piece carries the
   * label id of its word.
   */
  lemma WordPieceAt(
    tok: Tokenizer, words: seq<string>, ids: seq<int>, padId: int, width: int,
    ignoreExtraTokens: bool, ignoreStartEnd: bool, j: int, t: int)
    requires SplitsWords(tok, words) && |ids| >= |words|
    requires 2 <= |RawTokens(tok, words)| <= width
    requires 0 <= j < |words| && 0 <= t < |tok.textToTokens(words[j])|
    ensures var p := 1 + |Pieces(tok, words[..j])| + t;
      && p < |RawTokens(tok, words)| - 1
      && IdsRow(tok, words, width)[p] == tok.tokenToId(tok.textToTokens(words[j])[t])
      && InputMaskRow(tok, words, width)[p] == 1
      && StartsRow(tok, words, width)[p] == (if t == 0 then 1 else 0)
      && LossRow(tok, words, width, ignoreExtraTokens, ignoreStartEnd)[p]
           == (if t == 0 then 1 else ExtraBit(ignoreExtraTokens))
      && LabelsRow(tok, words, ids, padId, width)[p] == ids[j]
  {
    var raw := RawTokens(tok, words);
    BlockAt(tok, words, ids, ignoreExtraTokens, j, t);
    RawLengths(tok, words, ids, padId, ignoreExtraTokens, ignoreStartEnd);
    FitShort(TokensToIds(tok, raw), width, tok.tokenToId(tok.clsToken), 0);
    FitShort(Repeat(1, |raw|), width, 1, 0);
    FitShort(RawLoss(tok, words, ignoreExtraTokens, ignoreStartEnd), width, EdgeBit(ignoreStartEnd), 0);
    FitShort(RawStarts(tok, words), width, 0, 0);
    FitShort(RawLabels(tok, words, ids, padId), width, padId, padId);
  }

  /** The label id a labelled sentence gives to word j is the id of its label. */
  lemma SentenceLabelAt(lab: Labelling, queries: seq<seq<string>>, i: int, j: int)
    requires LabellingFits(lab, queries) && 0 <= i < |queries| && 0 <= j < |queries[i]|
    ensures j < |SentenceLabelIds(lab, queries, i)|
    ensures lab.rawLabels[i][j] in lab.labelIds
    ensures SentenceLabelIds(lab, queries, i)[j] == lab.labelIds[lab.rawLabels[i][j]]
  {
  }

  /**
   * Truncation: a row longer than the effective length keeps position 0, reset
   * to [CLS] with input mask 1, subtokens mask 0, the start/end loss bit and
   * the pad label, followed by the last width-1 positions of the raw row; the
   * same shift applies to every array, so the [SEP] column is kept last.
   */
  lemma TruncatedRow(
    tok: Tokenizer, words: seq<string>, ids: seq<int>, padId: int, width: int,
    ignoreExtraTokens: bool, ignoreStartEnd: bool)
    requires SplitsWords(tok, words) && |ids| >= |words|
    requires 2 <= width < |RawTokens(tok, words)|
    ensures |RawLoss(tok, words, ignoreExtraTokens, ignoreStartEnd)| == |RawTokens(tok, words)|
    ensures |RawStarts(tok, words)| == |RawTokens(tok, words)|
    ensures |RawLabels(tok, words, ids, padId)| == |RawTokens(tok, words)|
    ensures var raw := RawTokens(tok, words);
      var shift := |raw| - width;
      && IdsRow(tok, words, width)[0] == tok.tokenToId(tok.clsToken)
      && InputMaskRow(tok, words, width)[0] == 1
      && StartsRow(tok, words, width)[0] == 0
      && LossRow(tok, words, width, ignoreExtraTokens, ignoreStartEnd)[0] == EdgeBit(ignoreStartEnd)
      && LabelsRow(tok, words, ids, padId, width)[0] == padId
      && (forall k :: 1 <= k < width ==>
            && IdsRow(tok, words, width)[k] == tok.tokenToId(raw[k + shift])
            && InputMaskRow(tok, words, width)[k] == 1
            && LossRow(tok, words, width, ignoreExtraTokens, ignoreStartEnd)[k]
                 == RawLoss(tok, words, ignoreExtraTokens, ignoreStartEnd)[k + shift]
            && StartsRow(tok, words, width)[k] == RawStarts(tok, words)[k + shift]
            && LabelsRow(tok, words, ids, padId, width)[k] == RawLabels(tok, words, ids, padId)[k + shift])
      && IdsRow(tok, words, width)[width - 1] == tok.tokenToId(tok.sepToken)
  {
    var raw := RawTokens(tok, words);
    RawLengths(tok, words, ids, padId, ignoreExtraTokens, ignoreStartEnd);
    FitLong(TokensToIds(tok, raw), width, tok.tokenToId(tok.clsToken), 0);
    FitLong(Repeat(1, |raw|), width, 1, 0);
    FitLong(RawLoss(tok, words, ignoreExtraTokens, ignoreStartEnd), width, EdgeBit(ignoreStartEnd), 0);
    FitLong(RawStarts(tok, words), width, 0, 0);
    FitLong(RawLabels(tok, words, ids, padId), width, padId, padId);
  }

  /** The input mask is 1 on exactly the first min(n, width) positions of a row of n tokens. */
  lemma InputMaskPrefix(tok: Tokenizer, words: seq<string>, width: int)
    requires width >= 2
    ensures var n := |RawTokens(tok, words)|;
      forall k :: 0 <= k < width ==> InputMaskRow(tok, words, width)[k] == (if k < Min(n, width) then 1 else 0)
  {
    var n := |RawTokens(tok, words)|;
    if n > width {
      FitLong(Repeat(1, n), width, 1, 0);
    } else {
      FitShort(Repeat(1, n), width, 1, 0);
    }
  }

  /** A row of exactly the effective length is neither truncated nor padded. */
  lemma ExactRowUnchanged(
    tok: Tokenizer, words: seq<string>, ids: seq<int>, padId: int, width: int,
    ignoreExtraTokens: bool, ignoreStartEnd: bool)
    requires SplitsWords(tok, words) && |ids| >= |words|
    requires |RawTokens(tok, words)| == width
    ensures IdsRow(tok, words, width) == TokensToIds(tok, RawTokens(tok, words))
    ensures LossRow(tok, words, width, ignoreExtraTokens, ignoreStartEnd)
      == RawLoss(tok, words, ignoreExtraTokens, ignoreStartEnd)
    ensures StartsRow(tok, words, width) == RawStarts(tok, words)
    ensures LabelsRow(tok, words, ids, padId, width) == RawLabels(tok, words, ids, padId)
    ensures forall k :: 0 <= k < width ==> InputMaskRow(tok, words, width)[k] == 1
  {
    RawLengths(tok, words, ids, padId, ignoreExtraTokens, ignoreStartEnd);
    assert IdsRow(tok, words, width) == TokensToIds(tok, RawTokens(tok, words)) + [];
    assert LossRow(tok, words, width, ignoreExtraTokens, ignoreStartEnd)
      == RawLoss(tok, words, ignoreExtraTokens, ignoreStartEnd) + [];
    assert StartsRow(tok, words, width) == RawStarts(tok, words) + [];
    assert LabelsRow(tok, words, ids, padId, width) == RawLabels(tok, words, ids, padId) + [];
  }

  /** The effective length is reached: some row of the feature set is not padded at all. */
  lemma SomeRowUnpadded(
    queries: seq<seq<string>>, maxSeqLength: int, tok: Tokenizer,
    labelling: Option<Labelling>, ignoreExtraTokens: bool, ignoreStartEnd: bool)
    requires |queries| > 0 && maxSeqLength >= 2
    requires labelling.Some? ==> LabellingFits(labelling.value, queries)
    ensures var f := Encode(queries, maxSeqLength, tok, labelling, ignoreExtraTokens, ignoreStartEnd);
      exists i :: 0 <= i < |queries| && forall k :: 0 <= k < |f.inputMask[i]| ==> f.inputMask[i][k] == 1
  {
    var f := Encode(queries, maxSeqLength, tok, labelling, ignoreExtraTokens, ignoreStartEnd);
    var width := EffectiveLength(tok, queries, maxSeqLength);
    var lengths := RowLengths(tok, queries);
    var i :| 0 <= i < |queries| && lengths[i] == MaxOf(lengths);
    EncodeRowAt(queries, maxSeqLength, tok, labelling, ignoreExtraTokens, ignoreStartEnd, i);
    InputMaskPrefix(tok, queries[i], width);
    assert forall k :: 0 <= k < |f.inputMask[i]| ==> f.inputMask[i][k] == 1;
  }

  /**
   * A word appends one mask bit per piece, but at least one: the mask blocks
   * are exactly as long as the pieces when every word yields a piece, and
   * longer otherwise.
   */
  lemma {:induction false} BlocksCoverPieces(tok: Tokenizer, words: seq<string>, ignoreExtraTokens: bool)
    ensures |StartBlocks(tok, words)| == |LossBlocks(tok, words, ignoreExtraTokens)| >= |Pieces(tok, words)|
    ensures |LossBlocks(tok, words, ignoreExtraTokens)| == |Pieces(tok, words)| <==> SplitsWords(tok, words)
    decreases |words|
  {
    if words != [] {
      var init := words[..|words| - 1];
      BlocksCoverPieces(tok, init, ignoreExtraTokens);
      var n := |tok.textToTokens(words[|words| - 1])|;
      assert |WordLoss(n, ignoreExtraTokens)| == |WordStarts(n)| == if n == 0 then 1 else n;
      assert SplitsWords(tok, words) <==> SplitsWords(tok, init) && n > 0 by {
        assert forall j :: 0 <= j < |init| ==> init[j] == words[j];
      }
    }
  }

  /**
   * The first loop of get_features keeps a sentence's rows aligned exactly
   * when every word yields a piece: a word the tokenizer turns into no
   * pieces still appends a 1 to the loss mask and to the subtokens mask.
   */
  lemma RawRowsAlign(tok: Tokenizer, words: seq<string>, ignoreExtraTokens: bool, ignoreStartEnd: bool)
    ensures |RawStarts(tok, words)| == |RawLoss(tok, words, ignoreExtraTokens, ignoreStartEnd)|
    ensures |RawLoss(tok, words, ignoreExtraTokens, ignoreStartEnd)| == |RawTokens(tok, words)|
            <==> SplitsWords(tok, words)
  {
    BlocksCoverPieces(tok, words, ignoreExtraTokens);
  }

  // ---------------------------------------------------------------------------
  // The count of truncated rows
  // ---------------------------------------------------------------------------

  /** CountAbove counts exactly the positions whose value exceeds the width. */
  lemma {:induction false} CountAboveIsCard(lengths: seq<int>, width: int)
    ensures CountAbove(lengths, width) == |set k | 0 <= k < |lengths| && lengths[k] > width|
    decreases |lengths|
  {
    var all := set k | 0 <= k < |lengths| && lengths[k] > width;
    if lengths == [] {
      assert all == {};
    } else {
      var m := |lengths| - 1;
      var prefix := lengths[..m];
      CountAboveIsCard(prefix, width);
      var before := set k | 0 <= k < m && prefix[k] > width;
      if lengths[m] > width {
        assert all == before + {m};
      } else {
        assert all == before;
      }
    }
  }

  lemma {:induction false} CountAboveZero(lengths: seq<int>, width: int)
    ensures CountAbove(lengths, width) == 0 <==> forall k :: 0 <= k < |lengths| ==> lengths[k] <= width
    decreases |lengths|
  {
    if lengths != [] {
      var prefix := lengths[..|lengths| - 1];
      CountAboveZero(prefix, width);
      assert forall k :: 0 <= k < |prefix| ==> prefix[k] == lengths[k];
    }
  }

  /**
   * too_long_count is the number of sentences whose raw row is longer than
   * the effective length, and it is zero exactly when max_seq_length admits
   * the longest raw row.
   */
  lemma TooLongCountCorrect(tok: Tokenizer, queries: seq<seq<string>>, maxSeqLength: int)
    requires |queries| > 0 && maxSeqLength >= 2
    ensures TooLongCount(tok, queries, maxSeqLength)
      == |set i | 0 <= i < |queries| && |RawTokens(tok, queries[i])| > EffectiveLength(tok, queries, maxSeqLength)|
    ensures TooLongCount(tok, queries, maxSeqLength) == 0 <==> MaxOf(RowLengths(tok, queries)) <= maxSeqLength
  {
    var lengths := RowLengths(tok, queries);
    var width := EffectiveLength(tok, queries, maxSeqLength);
    CountAboveIsCard(lengths, width);
    assert (set k | 0 <= k < |lengths| && lengths[k] > width)
        == (set i | 0 <= i < |queries| && |RawTokens(tok, queries[i])| > width);
    CountAboveZero(lengths, width);
    if MaxOf(lengths) > maxSeqLength {
      var k :| 0 <= k < |lengths| && lengths[k] == MaxOf(lengths);
      assert lengths[k] > width;
    }
  }
}
