# Token-classification features, modelled in Dafny

This project models the feature preparation of NeMo's token-classification
datasets (`nemo/collections/nlp/data/token_classification/token_classification_dataset.py`).

- **`get_features`** turns lines of text into six parallel integer arrays with one row per sentence:
  - input ids and segment ids;
  - the input mask, loss mask and subtokens mask;
  - and, for training, label ids.

  Each line is split on whitespace. Every word is expanded into its subword pieces, and the row is framed by `[CLS]` and `[SEP]`. All rows are then cut or right-padded to one effective length: `min(max_seq_length, longest row)`. Along the way it counts how many rows had to be cut.
- **`BertTokenClassificationDataset`** checks its arguments and then reads, or first generates, a cache file keyed by the text file's name, the tokenizer and `max_seq_length`. Only the master process generates the file. The dataset serves the rows of one sentence per index.
- **`BertTokenClassificationInferDataset`** encodes a list of queries without labels.

Modules:

| module | file | what it holds |
|---|---|---|
| `Wrappers` | `wrappers.dfy` | `Option` and `Result` |
| `Words` | `words.dfy` | Python's `str.strip()` / `str.split()` over Python's whitespace set, and their properties |
| `Tokenization` | `tokenization.dfy` | The tokenizer as a value: word to pieces, piece to id, the two marker tokens, its type name, and an optional vocabulary size |
| `FeatureEncoding` | `feature_encoding.dfy` | See below |
| `FeatureProperties` | `feature_properties.dfy` | What the encoding promises: shape, alignment of the masks and labels with the words, truncation from the front, padding, and the too-long count |
| `CachePaths` | `cache_paths.dfy` | POSIX `basename`, `dirname` and `join`, `str()` of an integer, the cache file's name, and lemmas showing where the key lands and what it separates |
| `Datasets` | `datasets.dfy` | See below |

`FeatureEncoding` holds two things:
- the specification, as functions: `Encode` for the whole feature set, built from the raw rows of one sentence and the length policy `Fit`;
- the encoder `GetFeatures`, written imperatively like the original. Its first loop appends the raw rows. Its second loop cuts or pads them in place. Each loop's body is a step method (`ExpandNext`, `FitNext`) proved to keep that loop's invariant.

`Datasets` holds:
- `num_samples` sampling via `zip`;
- the constructor's outcome as a function of the cache contents (`Construct`), with lemmas on its error order and cache-write policy;
- the cache as a class (`FeatureStore`) whose map of feature files the constructor updates;
- the two dataset classes.

## Model

Source paths are relative to the repository root.

| member | source | states |
|---|---|---|
| Words.Strip | nemo/collections/nlp/data/token_classification/token_classification_dataset.py:79 | `query.strip()` is a slice of the line with only whitespace outside it, and the slice neither begins nor ends with whitespace, so exactly the whitespace at both ends is removed |
| Words.Split | nemo/collections/nlp/data/token_classification/token_classification_dataset.py:79 | `.split()` yields non-empty whitespace-free words, and the line is those words in order with whitespace runs between them (non-empty between two words) and possibly around them |
| Words.LineWords | nemo/collections/nlp/data/token_classification/token_classification_dataset.py:79 | The line is its words in order, each non-empty and whitespace-free, with whitespace runs between and around them |
| Words.Sentences | nemo/collections/nlp/data/token_classification/token_classification_dataset.py:78-79 | One word list per line, in order; entry i is `lines[i].strip().split()` |
| Words.SplitStrip | nemo/collections/nlp/data/token_classification/token_classification_dataset.py:79 | Stripping before splitting changes no word list |
| Words.SplitSeparated | nemo/collections/nlp/data/token_classification/token_classification_dataset.py:79 | Any non-empty whitespace-free words laid out with whitespace separators split back into exactly those words, so the decomposition in `Split` determines its result |
| Words.LineWordsExactly | nemo/collections/nlp/data/token_classification/token_classification_dataset.py:79 | Any layout of words and whitespace separators that spells a line gives exactly the words `query.strip().split()` returns for it |
| Words.SplitEmpty | nemo/collections/nlp/data/token_classification/token_classification_dataset.py:79 | A line yields no words exactly when it is all whitespace (both directions) |
| Tokenization.TokensToIds | nemo/collections/nlp/data/token_classification/token_classification_dataset.py:132 | One id per token, and the id at position k is the id of token k |
| FeatureEncoding.WordLabelIds | nemo/collections/nlp/data/token_classification/token_classification_dataset.py:88 | `query_labels` has one id per label, and the id at k is `label_ids[raw_labels[i][k]]` |
| FeatureEncoding.SentenceLabelIds | nemo/collections/nlp/data/token_classification/token_classification_dataset.py:88 | When the labels cover the sentence, there is a label id for every word |
| FeatureEncoding.Fit | nemo/collections/nlp/data/token_classification/token_classification_dataset.py:121-142 | The length policy always yields a row of exactly the effective length |
| FeatureEncoding.MaxOf | nemo/collections/nlp/data/token_classification/token_classification_dataset.py:116 | `max(sent_lengths)` bounds every length and is one of them |
| FeatureEncoding.RowLengths | nemo/collections/nlp/data/token_classification/token_classification_dataset.py:106 | `sent_lengths` has one entry per sentence |
| FeatureEncoding.EffectiveLength | nemo/collections/nlp/data/token_classification/token_classification_dataset.py:116 | The effective length lies between 2 and `max_seq_length` |
| FeatureEncoding.CountAbove | nemo/collections/nlp/data/token_classification/token_classification_dataset.py:119-130 | The too-long count never exceeds the number of sentences |
| FeatureEncoding.TooLongCount | nemo/collections/nlp/data/token_classification/token_classification_dataset.py:119-130 | `too_long_count`. `FeatureProperties.TooLongCountCorrect` proves it is the number of raw rows longer than the effective length, and zero exactly when no row exceeds `max_seq_length`. `GetFeatures` proves the loop returns it |
| FeatureEncoding.Encode | nemo/collections/nlp/data/token_classification/token_classification_dataset.py:39-157 | Every array has one row per sentence; labels are present exactly when labels were given |
| FeatureEncoding.BlockLengths | nemo/collections/nlp/data/token_classification/token_classification_dataset.py:90-101 | When every word yields a piece, the loss-mask, subtokens-mask and label blocks are exactly as long as the pieces |
| FeatureEncoding.RawLengths | nemo/collections/nlp/data/token_classification/token_classification_dataset.py:81-114 | Before the length policy, a sentence's token row has its pieces plus 2 entries, and its masks and labels have the same length |
| FeatureEncoding.ExpandWords | nemo/collections/nlp/data/token_classification/token_classification_dataset.py:81-114 | The inner loop builds `[CLS]`, each word's pieces, `[SEP]`, with the loss mask, subtokens mask and labels appended alongside, as the raw-row specification says |
| FeatureEncoding.ExpandNext | nemo/collections/nlp/data/token_classification/token_classification_dataset.py:78-114 | One iteration of the first loop appends sentence i's raw rows and keeps the loop invariant (earlier rows unchanged, pad id fixed) |
| FeatureEncoding.ExpandQueries | nemo/collections/nlp/data/token_classification/token_classification_dataset.py:78-114 | After the first loop, row k of every array is sentence k's raw row, `sent_lengths` is the list of raw lengths, and the pad id is `label_ids[pad_label]` |
| FeatureEncoding.IdsOfFit | nemo/collections/nlp/data/token_classification/token_classification_dataset.py:123-136 | Converting the cut tokens to ids equals cutting the ids, and likewise for padding |
| FeatureEncoding.FitRow | nemo/collections/nlp/data/token_classification/token_classification_dataset.py:121-144 | A row is cut exactly when its token row is longer than the effective length. Each array's row is the length policy applied with its own head value: CLS id, 1, `1 - ignore_start_end`, 0, and the pad id. Padding is 0, or the pad id for labels |
| FeatureEncoding.FitNext | nemo/collections/nlp/data/token_classification/token_classification_dataset.py:121-144 | One iteration of the second loop fits row i in place, appends its ids and segment ids, and keeps the loop invariant |
| FeatureEncoding.FitRows | nemo/collections/nlp/data/token_classification/token_classification_dataset.py:119-144 | After the second loop, every row is its raw row under the length policy, segment ids are all zero, and `too_long_count` counts the raw lengths above the effective length |
| FeatureEncoding.GetFeatures | nemo/collections/nlp/data/token_classification/token_classification_dataset.py:39-157 | The encoder returns exactly `Encode` of the lines' words and the too-long count of the specification |
| FeatureEncoding.EncodeByRows | nemo/collections/nlp/data/token_classification/token_classification_dataset.py:157 | Six arrays whose every row is the specified row are the specified feature set |
| FeatureProperties.EncodeRowAt | nemo/collections/nlp/data/token_classification/token_classification_dataset.py:78-144 | Row i of every array depends only on sentence i (and its labels) and the common effective length |
| FeatureProperties.EncodeShape | nemo/collections/nlp/data/token_classification/token_classification_dataset.py:116-144 | The width is `min(max_seq_length, max(sent_lengths))`. All six arrays have one row per sentence, every row has that width, segment ids are all zero, and labels are present exactly when given |
| FeatureProperties.UntruncatedRowLayout | nemo/collections/nlp/data/token_classification/token_classification_dataset.py:82-142 | For a row that fits, `[CLS]` and `[SEP]` sit first and last, with subtokens mask 0, loss mask `1 - ignore_start_end` and pad label. Past the end, ids and masks are 0 and labels are the pad id. The subtokens mask holds one 1 per word |
| FeatureProperties.WordPieceAt | nemo/collections/nlp/data/token_classification/token_classification_dataset.py:90-101 | Piece t of word j sits at 1 + (pieces of the earlier words) + t, with its id, input mask 1, and subtokens mask 1 only on the first piece. Its loss mask is 1 on the first piece and `not ignore_extra_tokens` on the others. Its label is word j's label id |
| FeatureProperties.SentenceLabelAt | nemo/collections/nlp/data/token_classification/token_classification_dataset.py:88 | Word j's label id is `label_ids` of the j-th label on its line |
| FeatureProperties.TruncatedRow | nemo/collections/nlp/data/token_classification/token_classification_dataset.py:121-132 | An overlong row keeps the CLS id (input mask 1, subtokens mask 0, loss mask `1 - ignore_start_end`, pad label) followed by the last width-1 raw positions of every array, shifted alike. Its last id is `[SEP]`'s |
| FeatureProperties.InputMaskPrefix | nemo/collections/nlp/data/token_classification/token_classification_dataset.py:110-139 | The input mask is 1 on exactly the first min(n, width) positions of a row of n tokens |
| FeatureProperties.ExactRowUnchanged | nemo/collections/nlp/data/token_classification/token_classification_dataset.py:122-134 | A row exactly as long as the width is neither cut nor padded |
| FeatureProperties.SomeRowUnpadded | nemo/collections/nlp/data/token_classification/token_classification_dataset.py:116-139 | Some row has no padding at all: padding never goes beyond the longest row |
| FeatureProperties.BlocksCoverPieces | nemo/collections/nlp/data/token_classification/token_classification_dataset.py:90-98 | Each word appends at least one mask bit. The mask blocks are as long as the pieces exactly when every word yields a piece (both directions) |
| FeatureProperties.RawRowsAlign | nemo/collections/nlp/data/token_classification/token_classification_dataset.py:90-110 | A sentence's loss and subtokens masks match its token row in length exactly when every word yields a piece. A pieceless word still appends a 1 to both masks |
| FeatureProperties.CountAboveIsCard | nemo/collections/nlp/data/token_classification/token_classification_dataset.py:119-130 | The too-long count is the size of the set of rows longer than the width |
| FeatureProperties.CountAboveZero | nemo/collections/nlp/data/token_classification/token_classification_dataset.py:119-130 | The count is zero exactly when no length exceeds the width |
| FeatureProperties.TooLongCountCorrect | nemo/collections/nlp/data/token_classification/token_classification_dataset.py:116-130 | `too_long_count` is the number of sentences whose raw row exceeds the effective length. It is zero exactly when `max_seq_length` admits the longest raw row |
| CachePaths.Basename | nemo/collections/nlp/data/token_classification/token_classification_dataset.py:223 | `os.path.basename` is the slash-free tail: the path is its head followed by the basename |
| CachePaths.Dirname | nemo/collections/nlp/data/token_classification/token_classification_dataset.py:222 | `os.path.dirname` is a prefix of the path. The path is the dirname, then a run of slashes, then the basename, and the run is empty exactly when the dirname is empty or the root |
| CachePaths.Join | nemo/collections/nlp/data/token_classification/token_classification_dataset.py:230-232 | `os.path.join` of two components: an absolute second part replaces the first; otherwise the second follows the first, with a slash added unless the first is empty or already ends with one. `JoinDirname` proves that `dirname` and `basename` of the join give back both parts |
| CachePaths.JoinDirname | nemo/collections/nlp/data/token_classification/token_classification_dataset.py:222-232 | Joining a directory with a slash-free name gives back that directory and that name |
| CachePaths.EndsWith | nemo/collections/nlp/data/token_classification/token_classification_dataset.py:225 | `str.endswith`. `Datasets.ConstructErrors` proves that a file name without the `.txt` ending fails with `NotTxtFile` on every process, before anything else |
| CachePaths.NatToString | nemo/collections/nlp/data/token_classification/token_classification_dataset.py:231 | `str()` of a natural number is non-empty decimal digits without leading zeros |
| CachePaths.IntToString | nemo/collections/nlp/data/token_classification/token_classification_dataset.py:231 | `str()` of an integer is non-empty and contains no slash and no underscore |
| CachePaths.ParseIntToString | nemo/collections/nlp/data/token_classification/token_classification_dataset.py:231 | `int(str(i)) == i`: the number written into the key is recoverable |
| CachePaths.CachedName | nemo/collections/nlp/data/token_classification/token_classification_dataset.py:231 | The cached name starts with "cached_" and ends with "_", `str(max_seq_length)`, "_", `str(vocab_size)` |
| CachePaths.CacheKey | nemo/collections/nlp/data/token_classification/token_classification_dataset.py:222-232 | `features_pkl`. `CacheKeyLocation` proves it lies in the text file's directory under the cached name. `CacheKeyShape` proves it is a prefix fixed by the file and tokenizer type, then the two numbers. `CacheKeySeparatesSettings` proves different settings give different keys |
| CachePaths.CacheKeyLocation | nemo/collections/nlp/data/token_classification/token_classification_dataset.py:222-232 | `features_pkl` lies in the text file's directory, and its base name is `cached_{filename}_{type}_{max_seq_length}_{vocab_size}` |
| CachePaths.CacheKeyShape | nemo/collections/nlp/data/token_classification/token_classification_dataset.py:228-232 | The key is a prefix fixed by the file and the tokenizer type, followed by `str(max_seq_length)`, `_` and `str(vocab_size)` |
| CachePaths.CacheKeySeparatesSettings | nemo/collections/nlp/data/token_classification/token_classification_dataset.py:228-232 | Keys for one file and tokenizer type are equal only when `max_seq_length` and `vocab_size` (0 when the tokenizer has none) are both equal |
| Datasets.Zip | nemo/collections/nlp/data/token_classification/token_classification_dataset.py:252 | `zip` pairs position k of both lists, for every k |
| Datasets.Unzip | nemo/collections/nlp/data/token_classification/token_classification_dataset.py:255-257 | `zip(*pairs)` gives two columns whose position k re-forms pair k |
| Datasets.UnzipZipPrefix | nemo/collections/nlp/data/token_classification/token_classification_dataset.py:251-257 | Unzipping the first m pairs gives the first m lines of both files |
| Datasets.Sample | nemo/collections/nlp/data/token_classification/token_classification_dataset.py:251-257 | The `num_samples` branch. `SampleKeepsPrefix` proves it keeps the first `min(num_samples, n)` pairs when positive and every pair when negative, and that a positive count over empty files fails (`zip(*[])` at line 255) |
| Datasets.SampleKeepsPrefix | nemo/collections/nlp/data/token_classification/token_classification_dataset.py:251-257 | Positive `num_samples` keeps the first min(num_samples, n) lines of both files, still paired, and fails on empty files. A negative value keeps everything |
| Datasets.Key | nemo/collections/nlp/data/token_classification/token_classification_dataset.py:228-232 | The dataset's `features_pkl`, which is `CachePaths.CacheKey` of the text file, the tokenizer and `max_seq_length`. Its properties are the `CacheKey` lemmas |
| Datasets.IsTxt | nemo/collections/nlp/data/token_classification/token_classification_dataset.py:225 | The extension check on the text file's base name. `ConstructErrors` proves its failure is `NotTxtFile` and comes first |
| Datasets.Generates | nemo/collections/nlp/data/token_classification/token_classification_dataset.py:234-235 | The condition for generating: master process, and `overwrite_processed_files` or no cache file. `ConstructCachePolicy` proves the cache changes only when it holds, and `ConstructErrors` proves that otherwise the result is the cached features or `CacheMissing` |
| Datasets.Generated | nemo/collections/nlp/data/token_classification/token_classification_dataset.py:236-268 | The generating branch as a value. `GenerateFeatures` proves the imperative branch returns it, `GeneratedWellFormed` that its features are aligned and of one width, and `ConstructErrors` the order of its `num_samples` and line-count errors |
| Datasets.Construct | nemo/collections/nlp/data/token_classification/token_classification_dataset.py:222-285 | The whole outcome of `__init__`, result and cache, as a function of the cache. `NewTokenClassificationDataset` proves the constructor does exactly this. `ConstructCachePolicy`, `ConstructErrors`, `ConstructEncodesSample` and `ConstructKeepsCacheValid` state what it promises |
| Datasets.ConstructCachePolicy | nemo/collections/nlp/data/token_classification/token_classification_dataset.py:234-285 | Only a generating master writes the cache, only on success, and only under the dataset's own key. Otherwise the cache is unchanged. A successful dataset holds what the cache holds under its key |
| Datasets.ConstructErrors | nemo/collections/nlp/data/token_classification/token_classification_dataset.py:225-277 | The extension is checked first, by every process. `num_samples == 0` and the line-count mismatch fail only when generating, in that order. A process that does not generate fails only when the cache file is missing, and that happens only to a non-master |
| Datasets.ConstructEncodesSample | nemo/collections/nlp/data/token_classification/token_classification_dataset.py:236-268 | A generating construction encodes exactly the first min(num_samples, n) lines (all of them for a negative `num_samples`) with their labels |
| Datasets.GeneratedWellFormed | nemo/collections/nlp/data/token_classification/token_classification_dataset.py:259-268 | Generated features are six aligned labelled arrays of one width |
| Datasets.ConstructKeepsCacheValid | nemo/collections/nlp/data/token_classification/token_classification_dataset.py:234-285 | A construction keeps every cached feature set well formed, and a successful one returns a well-formed labelled set |
| Datasets.FeatureStore.Save | nemo/collections/nlp/data/token_classification/token_classification_dataset.py:270 | `pickle.dump` replaces the file at the key and leaves every other file as it was |
| Datasets.FeatureStore.Load | nemo/collections/nlp/data/token_classification/token_classification_dataset.py:277 | `pickle.load` returns the file's features, or fails when there is no file |
| Datasets.FeatureStore.Exists | nemo/collections/nlp/data/token_classification/token_classification_dataset.py:235 | `os.path.exists` on the cache file. It holds exactly when the store has an entry under the key, which is exactly when `Load` returns the features rather than None |
| Datasets.PyIndex | nemo/collections/nlp/data/token_classification/token_classification_dataset.py:290-298 | Python list indexing: an index in `-n..n-1` gives a position in range that equals the index modulo n (negative counts from the end); any other index raises IndexError, modelled as None |
| Datasets.TokenClassificationDataset.constructor | nemo/collections/nlp/data/token_classification/token_classification_dataset.py:277-285 | The six attributes are the six arrays of the loaded features |
| Datasets.TokenClassificationDataset.Len | nemo/collections/nlp/data/token_classification/token_classification_dataset.py:287-288 | `len(all_input_ids)` is also the row count of every other array |
| Datasets.TokenClassificationDataset.GetItem | nemo/collections/nlp/data/token_classification/token_classification_dataset.py:290-298 | Item idx is row idx of all six arrays, counting from the end when idx is negative. The six rows share one length, and the segment row is all zero. An index outside `-len..len-1` yields None (IndexError) and only then |
| Datasets.GenerateFeatures | nemo/collections/nlp/data/token_classification/token_classification_dataset.py:236-268 | The generating branch returns the specified outcome, and its features are well formed |
| Datasets.NewTokenClassificationDataset | nemo/collections/nlp/data/token_classification/token_classification_dataset.py:208-285 | The cache afterwards and the error or dataset returned are exactly those `Construct` specifies, and the store stays valid |
| Datasets.TokenClassificationInferDataset.constructor | nemo/collections/nlp/data/token_classification/token_classification_dataset.py:331-338 | The attributes are the unlabelled encoding of the queries, keeping extra tokens and markers in the loss mask, and are well formed |
| Datasets.TokenClassificationInferDataset.Len | nemo/collections/nlp/data/token_classification/token_classification_dataset.py:340-341 | `len(all_input_ids)` is also the row count of the other four arrays |
| Datasets.TokenClassificationInferDataset.GetItem | nemo/collections/nlp/data/token_classification/token_classification_dataset.py:343-350 | Item idx is row idx of all five arrays (negative from the end). The rows share one length, and the segment row is all zero. An index outside `-len..len-1` yields None (IndexError) and only then |

### Where the model follows the code over the documented intent

- Rows are `L = min(max_seq_length, longest raw row)` positions wide (line 116), not always `max_seq_length`. So a single sentence of four one-piece words comes out 6 wide even when `max_seq_length` is 10.
- The label file's word count per line is never compared with the text line's (lines 242-249 compare only the line counts). Missing labels make line 101 raise, and the model excludes that case by precondition (see below). Extra labels are silently ignored, as in the model.
- The pad label's id is whatever `label_ids[pad_label]` says (line 86). It is not forced to 0.
- The docstrings (lines 52, 177 and 315) call `max_seq_length` the maximum length "minus 2 for [CLS] and [SEP]". The code counts both markers inside it: rows are cut to at most `max_seq_length` entries including the markers (lines 116-144), and the model does the same.
- The training docstring (lines 183-187) says `label_ids` should be None for the training set. The code reads `label_ids[pad_label]` whenever labels are present (line 86), so a None there raises TypeError on the first line. `Args.labelIds` is therefore always a map (see below).

## Left out

- Logging, `get_stats` and the printed examples (lines 117-118, 146-156, 271, 278): they do not affect any result.
- `output_types` (lines 195-206, 319-329), the `@experimental` decorator and the `Dataset` base class: declarations with no behaviour here.
- NumPy arrays and dtypes in `__getitem__`: items are integer sequences.
- File reading (lines 239-246): the text and label files enter as their lines (`Args.textLines`, `Args.labelLines`).
- Pickle files: modelled by `FeatureStore`, a map from path to features. I/O errors other than a missing file are not modelled.
- `torch.distributed`: the rank test becomes the `isMaster` parameter. The barrier (lines 274-275) and any concurrency are not modelled. A non-master that finds no cache file fails with `CacheMissing`, which is where Python's `open` would raise.
- Tokenizer internals: `text_to_tokens`, `tokens_to_ids` and the marker tokens are fields of the `Tokenizer` value. `type(tokenizer.tokenizer).__name__` is its `typeName`. A missing `vocab_size` attribute is `None` in `vocabSize`, written as 0 in the key.
- Python exceptions that the constructor raises become `Failure` values of `DatasetError`:
  - the extension check;
  - `num_samples == 0`;
  - the line-count mismatch;
  - an empty sample (`zip(*[])` at line 255 or `max([])` at line 116): `EmptyDataset`;
  - a missing cache file: `CacheMissing`.
- GetFeatures: requires at least one line, because `max(sent_lengths)` raises on an empty list.
- GetFeatures: requires `max_seq_length >= 2`. Below 2, the slice `[-max_seq_length + 1:]` no longer keeps `max_seq_length - 1` items, so rows are not cut to the width at all.
- GetFeatures: requires every word to yield at least one subword piece. For a word the tokenizer maps to no pieces, line 94 still appends a 1 to the loss mask and line 97 to the subtokens mask, so those rows run one entry longer than the token row and stay misaligned after padding. `FeatureProperties.RawRowsAlign` states this exactly, and the encoder is modelled only on aligned input.
- GetFeatures: with labels, requires that every line has at least as many labels as words, and that every label and the pad label are keys of `label_ids`. Otherwise lines 86, 88 or 101 raise.
- `label_ids=None` (lines 183-187): not modelled, `Args.labelIds` is a map. With None the training constructor raises TypeError at line 86 on the first line (or `max([])` raises first when there are no lines), so that documented use cannot produce a dataset.
- NewTokenClassificationDataset: requires the fences above only when this process generates. `Encodable` states them for the sampled lines.
- Datasets.FeatureStore.Valid: the store is assumed to hold only features this constructor wrote, that is labelled, aligned, one-width arrays. Files written by anything else are not modelled.
- TokenClassificationInferDataset.constructor: requires the same fences as `GetFeatures` without labels.
