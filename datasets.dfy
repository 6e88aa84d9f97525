/**
 * The two token-classification datasets. The training dataset reads a text
 * file and a label file, encodes them once and caches the features under a
 * key derived from the file name and the tokenizer; later constructions, and
 * every process but the master, read the cache. The inference dataset
 * encodes a list of queries without labels. Both serve one row per sentence.
 */
module Datasets {
  import opened Wrappers
  import opened Words
  import opened Tokenization
  import opened FeatureEncoding
  import opened FeatureProperties
  import opened CachePaths

  /** The exceptions the training constructor raises. */
  datatype DatasetError =
    | NotTxtFile         // the text file's name does not end with .txt
    | NoSamples          // num_samples == 0
    | LineCountMismatch  // the label file has another number of lines than the text file
    | EmptyDataset       // no sentence is left to encode
    | CacheMissing       // no cached features to load (a non-master process before the master wrote them)

  /** The constructor arguments, with the contents of the two files in place of reading them. */
  datatype Args = Args(
    textFile: string,
    textLines: seq<string>,   // the lines of the text file
    labelLines: seq<string>,  // the lines of the label file
    maxSeqLength: int,
    tok: Tokenizer,
    labelIds: map<string, int>,
    numSamples: int,
    padLabel: string,
    ignoreExtraTokens: bool,
    ignoreStartEnd: bool,
    overwriteProcessedFiles: bool)

  // ---------------------------------------------------------------------------
  // Sampling
  // ---------------------------------------------------------------------------

  /** list(zip(a, b)) for lists of one length. */
  function Zip<A, B>(a: seq<A>, b: seq<B>): (z: seq<(A, B)>)
    requires |a| == |b|
    ensures |z| == |a|
    ensures forall k :: 0 <= k < |z| ==> z[k] == (a[k], b[k])
  {
    seq(|a|, k requires 0 <= k < |a| => (a[k], b[k]))
  }

  /** list(zip(*pairs)), as its two columns. */
  function Unzip<A, B>(pairs: seq<(A, B)>): (r: (seq<A>, seq<B>))
    ensures |r.0| == |r.1| == |pairs|
    ensures forall k :: 0 <= k < |pairs| ==> pairs[k] == (r.0[k], r.1[k])
  {
    (seq(|pairs|, k requires 0 <= k < |pairs| => pairs[k].0),
     seq(|pairs|, k requires 0 <= k < |pairs| => pairs[k].1))
  }

  /** Unzipping a prefix of a zip gives the prefixes of both lists. */
  lemma UnzipZipPrefix<A, B>(a: seq<A>, b: seq<B>, m: int)
    requires |a| == |b| && 0 <= m <= |a|
    ensures Unzip(Zip(a, b)[..m]) == (a[..m], b[..m])
  {
    var r := Unzip(Zip(a, b)[..m]);
    assert r.0 == a[..m];
    assert r.1 == b[..m];
  }

  /**
   * The num_samples policy: a positive count keeps that many leading
   * sentence/label pairs (all when there are fewer), a negative one keeps
   * everything. Unzipping an empty sample fails: None.
   */
  function Sample<A, B>(textLines: seq<A>, labels: seq<B>, numSamples: int): Option<(seq<A>, seq<B>)>
    requires |textLines| == |labels|
  {
    if numSamples > 0 then
      var pairs := Zip(textLines, labels);
      var kept := pairs[..Min(numSamples, |pairs|)];
      if kept == [] then None else Some(Unzip(kept))
    else
      Some((textLines, labels))
  }

  /** Sampling keeps the first min(num_samples, n) lines of both files, still paired. */
  lemma SampleKeepsPrefix<A, B>(textLines: seq<A>, labels: seq<B>, numSamples: int)
    requires |textLines| == |labels|
    ensures numSamples < 0 ==> Sample(textLines, labels, numSamples) == Some((textLines, labels))
    ensures numSamples > 0 && textLines == [] ==> Sample(textLines, labels, numSamples).None?
    ensures numSamples > 0 && textLines != [] ==>
      var m := Min(numSamples, |textLines|);
      Sample(textLines, labels, numSamples) == Some((textLines[..m], labels[..m]))
  {
    if numSamples > 0 {
      UnzipZipPrefix(textLines, labels, Min(numSamples, |textLines|));
    }
  }

  // ---------------------------------------------------------------------------
  // The constructor of the training dataset, as a function of the cache
  // ---------------------------------------------------------------------------

  /** The outcome of a construction: the features (or the error) and the cache afterwards. */
  datatype Outcome = Outcome(result: Result<Features, DatasetError>, cache: map<string, Features>)

  function Key(args: Args): string
  {
    CacheKey(args.textFile, args.tok, args.maxSeqLength)
  }

  /** The file has the .txt extension. */
  predicate IsTxt(args: Args)
  {
    EndsWith(Basename(args.textFile), ".txt")
  }

  /** This process encodes the files: it is the master, and it was told to or finds no cache. */
  predicate Generates(args: Args, cache: map<string, Features>, isMaster: bool)
  {
    IsTxt(args) && isMaster && (args.overwriteProcessedFiles || Key(args) !in cache)
  }

  /**
   * The sampled lines are ones the encoder can take: every word yields a
   * subword piece, every line of labels covers its sentence with known
   * labels, the pad label is known, and max_seq_length is at least 2.
   */
  predicate Encodable(args: Args)
  {
    |args.textLines| == |args.labelLines| ==>
      match Sample(args.textLines, Sentences(args.labelLines), args.numSamples)
      case None => true
      case Some(lines) =>
        var queries := Sentences(lines.0);
        |queries| > 0 ==>
          && args.maxSeqLength >= 2
          && SplitsEveryWord(args.tok, queries)
          && LabellingFits(Labelling(args.labelIds, args.padLabel, lines.1), queries)
  }

  /**
   * The generating branch of BertTokenClassificationDataset.__init__: the
   * num_samples check, reading both files, the line-count check, sampling
   * and encoding.
   */
  function Generated(args: Args): Result<Features, DatasetError>
    requires args.numSamples != 0 ==> Encodable(args)
  {
    if args.numSamples == 0 then Failure(NoSamples)
    else if |args.labelLines| != |args.textLines| then Failure(LineCountMismatch)
    else
      match Sample(args.textLines, Sentences(args.labelLines), args.numSamples)
      case None => Failure(EmptyDataset)
      case Some(lines) =>
        if lines.0 == [] then Failure(EmptyDataset)
        else
          Success(Encode(Sentences(lines.0), args.maxSeqLength, args.tok,
                         Some(Labelling(args.labelIds, args.padLabel, lines.1)),
                         args.ignoreExtraTokens, args.ignoreStartEnd))
  }

  /**
   * BertTokenClassificationDataset.__init__: the extension check, then the
   * generating branch and the cache write when this process generates, then
   * the load from the cache.
   */
  function Construct(args: Args, cache: map<string, Features>, isMaster: bool): Outcome
    requires Generates(args, cache, isMaster) && args.numSamples != 0 ==> Encodable(args)
  {
    if !IsTxt(args) then Outcome(Failure(NotTxtFile), cache)
    else if Generates(args, cache, isMaster) then
      match Generated(args)
      case Failure(e) => Outcome(Failure(e), cache)
      case Success(f) => Outcome(Success(f), cache[Key(args) := f])
    else if Key(args) in cache then Outcome(Success(cache[Key(args)]), cache)
    else Outcome(Failure(CacheMissing), cache)
  }

  /** What the cache may hold: labelled feature sets with aligned rows. */
  predicate CacheValid(cache: map<string, Features>)
  {
    forall key :: key in cache ==> WellFormed(cache[key], true)
  }

  /**
   * The cache write policy: at most the dataset's own key is written, only by
   * a master that generates, and only when the construction succeeds; what
   * the dataset then holds is what the cache holds under its key.
   */
  lemma ConstructCachePolicy(args: Args, cache: map<string, Features>, isMaster: bool)
    requires Generates(args, cache, isMaster) && args.numSamples != 0 ==> Encodable(args)
    ensures var o := Construct(args, cache, isMaster);
      && (o.cache == cache
          || (Generates(args, cache, isMaster) && o.result.Success? && o.cache == cache[Key(args) := o.result.value]))
      && (!Generates(args, cache, isMaster) || o.result.Failure? ==> o.cache == cache)
      && (o.result.Success? ==> Key(args) in o.cache && o.cache[Key(args)] == o.result.value)
  {
    if IsTxt(args) && Generates(args, cache, isMaster) {
      var o := Construct(args, cache, isMaster);
      match Generated(args)
      case Failure(e) =>
        assert o == Outcome(Failure(e), cache);
      case Success(f) =>
        assert o == Outcome(Success(f), cache[Key(args) := f]);
    }
  }

  /**
   * The error order: the extension is checked first and by every process;
   * num_samples and the line counts only when generating, in that order; a
   * process that does not generate fails only when the cache is missing.
   */
  lemma ConstructErrors(args: Args, cache: map<string, Features>, isMaster: bool)
    requires Generates(args, cache, isMaster) && args.numSamples != 0 ==> Encodable(args)
    ensures var o := Construct(args, cache, isMaster);
      && (!IsTxt(args) ==> o.result == Failure(NotTxtFile))
      && (Generates(args, cache, isMaster) && args.numSamples == 0 ==> o.result == Failure(NoSamples))
      && ((Generates(args, cache, isMaster) && args.numSamples != 0 && |args.labelLines| != |args.textLines|)
            ==> o.result == Failure(LineCountMismatch))
      && (IsTxt(args) && !Generates(args, cache, isMaster) ==>
            o.result == (if Key(args) in cache then Success(cache[Key(args)]) else Failure(CacheMissing)))
      && (o.result == Failure(CacheMissing) ==> IsTxt(args) && !isMaster && Key(args) !in cache)
  {
  }

  /**
   * A successful generation encodes the first min(num_samples, n) lines (all
   * of them for a negative num_samples) with their labels.
   */
  lemma ConstructEncodesSample(args: Args, cache: map<string, Features>, isMaster: bool)
    requires Generates(args, cache, isMaster) && args.numSamples != 0 ==> Encodable(args)
    requires Generates(args, cache, isMaster) && args.numSamples != 0
    requires |args.labelLines| == |args.textLines| && |args.textLines| > 0
    ensures var m := if args.numSamples > 0 then Min(args.numSamples, |args.textLines|) else |args.textLines|;
      var text := args.textLines[..m];
      var labels := Sentences(args.labelLines)[..m];
      && LabellingFits(Labelling(args.labelIds, args.padLabel, labels), Sentences(text))
      && args.maxSeqLength >= 2
      && Construct(args, cache, isMaster).result
           == Success(Encode(Sentences(text), args.maxSeqLength, args.tok,
                             Some(Labelling(args.labelIds, args.padLabel, labels)),
                             args.ignoreExtraTokens, args.ignoreStartEnd))
  {
    var labels := Sentences(args.labelLines);
    var m := if args.numSamples > 0 then Min(args.numSamples, |args.textLines|) else |args.textLines|;
    var text, labelsM := args.textLines[..m], labels[..m];
    assert Sample(args.textLines, labels, args.numSamples) == Some((text, labelsM)) by {
      SampleKeepsPrefix(args.textLines, labels, args.numSamples);
      if args.numSamples < 0 {
        assert args.textLines[..|args.textLines|] == args.textLines;
        assert labels[..|args.textLines|] == labels;
      }
    }
    assert |Sentences(text)| == m > 0;
    var labelling := Labelling(args.labelIds, args.padLabel, labelsM);
    assert Generated(args) == Success(Encode(Sentences(text), args.maxSeqLength, args.tok, Some(labelling),
                                             args.ignoreExtraTokens, args.ignoreStartEnd));
  }

  /** A successful generation is a valid labelled feature set. */
  lemma GeneratedWellFormed(args: Args)
    requires args.numSamples != 0 ==> Encodable(args)
    ensures Generated(args).Success? ==> WellFormed(Generated(args).value, true)
  {
    if args.numSamples != 0 && |args.labelLines| == |args.textLines| {
      match Sample(args.textLines, Sentences(args.labelLines), args.numSamples)
      case None =>
      case Some(lines) =>
        if lines.0 != [] {
          EncodeShape(Sentences(lines.0), args.maxSeqLength, args.tok,
                      Some(Labelling(args.labelIds, args.padLabel, lines.1)),
                      args.ignoreExtraTokens, args.ignoreStartEnd);
        }
    }
  }

  /** Constructions keep the cache valid, and what they return is a valid labelled feature set. */
  lemma ConstructKeepsCacheValid(args: Args, cache: map<string, Features>, isMaster: bool)
    requires Generates(args, cache, isMaster) && args.numSamples != 0 ==> Encodable(args)
    requires CacheValid(cache)
    ensures var o := Construct(args, cache, isMaster);
      && CacheValid(o.cache)
      && (o.result.Success? ==> WellFormed(o.result.value, true))
  {
    if IsTxt(args) && Generates(args, cache, isMaster) {
      GeneratedWellFormed(args);
    }
  }

  // ---------------------------------------------------------------------------
  // The cache and the datasets
  // ---------------------------------------------------------------------------

  /** The pickled feature files on disk, by path. */
  class FeatureStore {
    var entries: map<string, Features>

    ghost predicate Valid()
      reads this
    {
      CacheValid(entries)
    }

    constructor ()
      ensures entries == map[] && Valid()
    {
      entries := map[];
    }

    /** os.path.exists. */
    predicate Exists(key: string)
      reads this
    {
      key in entries
    }

    /** pickle.dump to the file at key. */
    method Save(key: string, f: Features)
      requires Valid() && WellFormed(f, true)
      modifies this
      ensures entries == old(entries)[key := f]
      ensures Valid()
    {
      entries := entries[key := f];
    }

    /** pickle.load from the file at key, which fails when there is none. */
    method Load(key: string) returns (r: Option<Features>)
      requires Valid()
      ensures key in entries ==> r == Some(entries[key])
      ensures key !in entries ==> r == None
      ensures r.Some? ==> WellFormed(r.value, true)
    {
      if key in entries {
        r := Some(entries[key]);
      } else {
        r := None;
      }
    }
  }

  /** One training example: the six rows of a sentence. */
  datatype LabelledItem = LabelledItem(
    inputIds: seq<int>, segmentIds: seq<int>, inputMask: seq<int>,
    lossMask: seq<int>, subtokensMask: seq<int>, labels: seq<int>)

  /** One inference example: the five rows of a sentence. */
  datatype Item = Item(
    inputIds: seq<int>, segmentIds: seq<int>, inputMask: seq<int>,
    lossMask: seq<int>, subtokensMask: seq<int>)

  /**
   * Python's list indexing into n elements: a negative index counts from the
   * end, and an index outside -n..n-1 raises IndexError (None here).
   */
  function PyIndex(idx: int, n: nat): (k: Option<nat>)
    ensures k.Some? <==> -(n as int) <= idx < n
    ensures k.Some? ==> k.value < n && k.value % n == idx % n
  {
    if idx < -(n as int) || idx >= n then None
    else if idx < 0 then Some(n + idx)
    else Some(idx)
  }

  /** BertTokenClassificationDataset: the loaded features, served row by row. */
  class TokenClassificationDataset {
    const allInputIds: seq<seq<int>>
    const allSegmentIds: seq<seq<int>>
    const allInputMask: seq<seq<int>>
    const allLossMask: seq<seq<int>>
    const allSubtokensMask: seq<seq<int>>
    const allLabels: seq<seq<int>>

    function AsFeatures(): Features
    {
      Features(allInputIds, allSegmentIds, allInputMask, allLossMask, allSubtokensMask, allLabels)
    }

    predicate Valid()
    {
      WellFormed(AsFeatures(), true)
    }

    constructor (features: Features)
      requires WellFormed(features, true)
      ensures AsFeatures() == features && Valid()
    {
      allInputIds := features.inputIds;
      allSegmentIds := features.segmentIds;
      allInputMask := features.inputMask;
      allLossMask := features.lossMask;
      allSubtokensMask := features.subtokensMask;
      allLabels := features.labels;
    }

    /** __len__: the number of sentences, which every array has rows for. */
    function Len(): (n: nat)
      requires Valid()
      ensures n == |allSegmentIds| == |allInputMask| == |allLossMask| == |allSubtokensMask| == |allLabels|
    {
      |allInputIds|
    }

    /**
     * __getitem__: the rows of sentence idx (counted from the end when
     * negative), all of one width, with all-zero segment ids; None when the
     * index is out of range, where Python raises IndexError.
     */
    method GetItem(idx: int) returns (item: Option<LabelledItem>)
      requires Valid()
      ensures item.Some? <==> -(Len() as int) <= idx < Len()
      ensures item.Some? ==> var k := PyIndex(idx, Len()).value; var it := item.value;
        && it.inputIds == allInputIds[k] && it.segmentIds == allSegmentIds[k]
        && it.inputMask == allInputMask[k] && it.lossMask == allLossMask[k]
        && it.subtokensMask == allSubtokensMask[k] && it.labels == allLabels[k]
      ensures item.Some? ==> var it := item.value;
        && |it.segmentIds| == |it.inputMask| == |it.lossMask| == |it.subtokensMask| == |it.labels| == |it.inputIds|
        && forall t :: 0 <= t < |it.segmentIds| ==> it.segmentIds[t] == 0
    {
      var n := |allInputIds|;
      if idx < -n || idx >= n {
        return None;
      }
      var k := if idx < 0 then idx + n else idx;
      assert |allInputIds[k]| == |allInputIds[0]|;
      item := Some(LabelledItem(allInputIds[k], allSegmentIds[k], allInputMask[k],
                                allLossMask[k], allSubtokensMask[k], allLabels[k]));
    }
  }

  /** The generating branch of the training constructor. */
  method GenerateFeatures(args: Args) returns (r: Result<Features, DatasetError>)
    requires args.numSamples != 0 ==> Encodable(args)
    ensures r == Generated(args)
    ensures r.Success? ==> WellFormed(r.value, true)
  {
    if args.numSamples == 0 {
      return Failure(NoSamples);
    }
    var textLines := args.textLines;
    var labelsLines := Sentences(args.labelLines);
    if |labelsLines| != |textLines| {
      return Failure(LineCountMismatch);
    }
    if args.numSamples > 0 {
      var dataset := Zip(textLines, labelsLines);
      dataset := dataset[..Min(args.numSamples, |dataset|)];
      if dataset == [] {
        return Failure(EmptyDataset);
      }
      var columns := Unzip(dataset);
      textLines, labelsLines := columns.0, columns.1;
    }
    assert Sample(args.textLines, Sentences(args.labelLines), args.numSamples) == Some((textLines, labelsLines));
    if textLines == [] {
      return Failure(EmptyDataset);
    }
    var labelling := Labelling(args.labelIds, args.padLabel, labelsLines);
    var features, _ := GetFeatures(textLines, args.maxSeqLength, args.tok, Some(labelling),
                                   args.ignoreExtraTokens, args.ignoreStartEnd);
    GeneratedWellFormed(args);
    return Success(features);
  }

  /**
   * The training constructor: builds the dataset from the cache, generating
   * and caching the features first when this process is the master and was
   * told to or finds no cache. A construction that raises is a Failure.
   */
  method NewTokenClassificationDataset(args: Args, store: FeatureStore, isMaster: bool)
    returns (r: Result<TokenClassificationDataset, DatasetError>)
    requires store.Valid()
    requires Generates(args, store.entries, isMaster) && args.numSamples != 0 ==> Encodable(args)
    modifies store
    ensures store.Valid()
    ensures store.entries == Construct(args, old(store.entries), isMaster).cache
    ensures r.Failure? ==> Construct(args, old(store.entries), isMaster).result == Failure(r.error)
    ensures r.Success? ==>
      && fresh(r.value) && r.value.Valid()
      && Construct(args, old(store.entries), isMaster).result == Success(r.value.AsFeatures())
  {
    var dataDir := Dirname(args.textFile);
    var filename := Basename(args.textFile);
    if !EndsWith(filename, ".txt") {
      return Failure(NotTxtFile);
    }
    var tok := args.tok;
    var featuresPkl := Join(dataDir, CachedName(filename, tok.typeName, args.maxSeqLength, VocabSize(tok)));
    assert featuresPkl == Key(args);

    if isMaster && (args.overwriteProcessedFiles || !store.Exists(featuresPkl)) {
      var generated := GenerateFeatures(args);
      if generated.Failure? {
        return Failure(generated.error);
      }
      store.Save(featuresPkl, generated.value);
    }

    var loaded := store.Load(featuresPkl);
    if loaded.None? {
      return Failure(CacheMissing);
    }
    var dataset := new TokenClassificationDataset(loaded.value);
    return Success(dataset);
  }

  /** BertTokenClassificationInferDataset: the unlabelled features of the queries. */
  class TokenClassificationInferDataset {
    const allInputIds: seq<seq<int>>
    const allSegmentIds: seq<seq<int>>
    const allInputMask: seq<seq<int>>
    const allLossMask: seq<seq<int>>
    const allSubtokensMask: seq<seq<int>>

    function AsFeatures(): Features
    {
      Features(allInputIds, allSegmentIds, allInputMask, allLossMask, allSubtokensMask, [])
    }

    predicate Valid()
    {
      WellFormed(AsFeatures(), false)
    }

    /**
     * Encodes the queries without labels, keeping extra tokens and the
     * start/end markers in the loss mask.
     */
    constructor (queries: seq<string>, maxSeqLength: int, tok: Tokenizer)
      requires |queries| > 0 && maxSeqLength >= 2
      requires SplitsEveryWord(tok, Sentences(queries))
      ensures AsFeatures() == Encode(Sentences(queries), maxSeqLength, tok, None, false, false)
      ensures Valid()
    {
      var features, _ := GetFeatures(queries, maxSeqLength, tok, None, false, false);
      EncodeShape(Sentences(queries), maxSeqLength, tok, None, false, false);
      allInputIds := features.inputIds;
      allSegmentIds := features.segmentIds;
      allInputMask := features.inputMask;
      allLossMask := features.lossMask;
      allSubtokensMask := features.subtokensMask;
    }

    /** __len__: the number of queries, which every array has rows for. */
    function Len(): (n: nat)
      requires Valid()
      ensures n == |allSegmentIds| == |allInputMask| == |allLossMask| == |allSubtokensMask|
    {
      |allInputIds|
    }

    /**
     * __getitem__: the five rows of query idx (counted from the end when
     * negative); None when the index is out of range, where Python raises IndexError.
     */
    method GetItem(idx: int) returns (item: Option<Item>)
      requires Valid()
      ensures item.Some? <==> -(Len() as int) <= idx < Len()
      ensures item.Some? ==> var k := PyIndex(idx, Len()).value; var it := item.value;
        && it.inputIds == allInputIds[k] && it.segmentIds == allSegmentIds[k]
        && it.inputMask == allInputMask[k] && it.lossMask == allLossMask[k]
        && it.subtokensMask == allSubtokensMask[k]
      ensures item.Some? ==> var it := item.value;
        && |it.segmentIds| == |it.inputMask| == |it.lossMask| == |it.subtokensMask| == |it.inputIds|
        && forall t :: 0 <= t < |it.segmentIds| ==> it.segmentIds[t] == 0
    {
      var n := |allInputIds|;
      if idx < -n || idx >= n {
        return None;
      }
      var k := if idx < 0 then idx + n else idx;
      assert |allInputIds[k]| == |allInputIds[0]|;
      item := Some(Item(allInputIds[k], allSegmentIds[k], allInputMask[k], allLossMask[k], allSubtokensMask[k]));
    }
  }
}
