# Whale-call ingest, modelled in Dafny

A model of the data-preparation core of the whale-call example,
`examples/whale_calls/data.py`, together with proofs about it. The model covers:

- `ingest_whales`:
  - writes the two run configuration files;
  - short-circuits when all five manifests already exist;
  - otherwise extracts the archive and writes the two label files;
  - partitions the rows of `data/train.csv` by label;
  - cuts each class at `int(len * train_frac)` into `train` and `val`;
  - takes the `noise` paths from the negative training prefix;
  - shuffles every set but `test` with one generator seeded once;
  - writes the `all`, `val`, `train`, `noise` and `test` manifests;
  - returns the five manifest paths.
- The option dictionaries that `common_config`, `make_train_loader` and
  `make_test_loader` build for the audio data loader.

Modules, one per file:

| file | module | what it holds |
|---|---|---|
| `wrappers.dfy` | `Wrappers` | `Option` and `Result` |
| `paths.dfy` | `Paths` | POSIX `os.path.join` |
| `pyslice.dfy` | `PySlice` | the fraction `num/den` that stands in for the float `train_frac`; `int()` truncation toward zero; Python slice bounds (negative and over-long) |
| `shuffle.dfy` | `Shuffle` | numpy's in-place shuffle of a Python list (Fisher-Yates from the last position down) over an abstract stream of generator draws |
| `records.dfy` | `Records` | rows of `train.csv`, the label-file lookup `lbl_files[lbl]` with Python indexing, and the partition loop |
| `split.dfy` | `Split` | the five unshuffled sets |
| `manifest_format.dfy` | `ManifestFormat` | the two-column row format, the file text (a one-column row is the path itself), and a reader that inverts them |
| `ingest.dfy` | `Ingest` | manifest paths, configuration files, shuffling, the whole step as a function from what it sees to what it does, and end-to-end properties |
| `loader_config.dfy` | `LoaderConfig` | the loader dictionaries as records, with a key set for each |

The step is a pure function `Ingest.IngestWhales`. Its inputs are:

- the paths that exist beforehand;
- the parsed rows of `train.csv`;
- the test files the glob lists;
- the script directory;
- the order in which the interpreter lists the items of the `manifests` dictionary;
- the generator's draws.

It returns an `Ingested` value with three parts:

- the return value, or the error raised: the `TypeError` of iterating a one-row parse, the `IndexError` of the label lookup, or numpy's error on an empty two-column manifest;
- whether it extracted the archive;
- the files it wrote, in order, with their full text.

Behaviour of the code worth knowing:

- `lbl_files[lbl]` accepts any label from -2 to 1, because Python indexes from the end for negative indices. Any other label raises. A row is positive only when its label is 1; every other row is negative. So a label of -1 is filed as negative but points at `data/pos.txt` (`Records.MinusOneIsNegativeWithPositiveFile`).
- The split point is `int(len * train_frac)`, which truncates toward zero. This matches `floor` for fractions of at least 0. For negative fractions it gives a non-positive bound, and Python slicing then counts it from the end. For every fraction, `train` and `val` together still hold exactly the records of `all` (`Split.TrainValCoverAll`).
- The generator is seeded once before the loop. The four shuffled sets therefore draw from one stream, in the order all, val, train, noise; they are not shuffled independently.
- Any label other than 1 goes to the negatives, so `noise` comes from every non-positive row, not only from rows labelled 0.
- The existence check needs all five manifests. If only some exist, the step extracts and rewrites everything.
- `np.savetxt` with the two-field format rejects an empty list, after creating the file. So a run fails whenever `all`, `val` or `train` is empty: at `train_frac = 1` (`val` is empty), at `train_frac = 0` (`train` is empty), and on a `train.csv` with no data rows (`all` is empty). The failing manifest is left empty and no later manifest is written (`Ingest.EmptyPairSetFails`). This applies when `train.csv` has no data rows or at least two; one data row fails earlier, as the next point says.
- `np.genfromtxt` returns a file with exactly one data row as a 0-d array, and `for aiff, lbl in train_records` raises `TypeError` on it. So a `train.csv` with one data row fails after the label files are written, before any label is looked up and before any manifest is written (`Ingest.SingleRowFails`). A run that writes all five manifests therefore had at least two data rows (`Ingest.PairSetsNeedTwoRows`).

## Model

| member | source | states |
|---|---|---|
| Paths.JoinShape | examples/whale_calls/data.py:28-32 | a joined path ends in the component; for a relative component it starts with the directory, and the two are separated by exactly one `/` when the directory is non-empty and does not end in one, by nothing otherwise; an absolute component is the whole result |
| Paths.JoinPrefix | examples/whale_calls/data.py:30-32 | joining onto a directory prefixes every relative component with the same text |
| Paths.JoinInjective | examples/whale_calls/data.py:32 | two different relative names joined onto the same directory give different paths |
| PySlice.TruncDiv | examples/whale_calls/data.py:73 | `int()` of a quotient keeps the dividend's sign and is no larger in size than the dividend |
| PySlice.SplitPoint | examples/whale_calls/data.py:73 | the split point of a class of n records is non-positive for a negative fraction, non-negative otherwise, and within [0, n] for a fraction in [0, 1] |
| PySlice.SplitPointIsFloor | examples/whale_calls/data.py:73 | for a non-negative fraction the split point k satisfies k·den ≤ n·num < (k+1)·den, i.e. it is floor(n·frac) |
| PySlice.TakeDrop | examples/whale_calls/data.py:77-78 | `s[:k] + s[k:] == s` for every integer k, however Python normalises a negative or over-long bound: the prefix and suffix slices always split the list |
| Shuffle.Swap | examples/whale_calls/data.py:91 | swapping two positions exchanges those two entries, leaves every other entry in place, and keeps the multiset |
| Shuffle.FisherYates | examples/whale_calls/data.py:87-91 | the swap steps from position i down to 1 keep the length and the multiset of the list |
| Shuffle.ShuffleFrom | examples/whale_calls/data.py:87-91 | a shuffled list is a permutation of the input, and the shuffle consumes one draw per position after the first |
| Records.DataPaths | examples/whale_calls/data.py:56-67 | the label-file list is `os.path.join('data', 'neg.txt')` then `os.path.join('data', 'pos.txt')`, and the training directory is `os.path.join('data', 'train')` |
| Records.TrainAudioPath | examples/whale_calls/data.py:67 | joining a clip name onto the training directory gives `os.path.join('data', 'train', name)` |
| Records.LabelFile | examples/whale_calls/data.py:56-67 | the lookup succeeds iff the label is in -2..1 and otherwise reports that label; 0 and -2 give `data/neg.txt`, 1 and -1 give `data/pos.txt`, as Python's negative indices wrap |
| Records.AllRecords | examples/whale_calls/data.py:66-67 | the records of the rows, one per row, in row order |
| Records.IndexableStep | examples/whale_calls/data.py:66-67 | a list of rows can be looked up iff its first label can and the rest can |
| Records.PartitionFromOk | examples/whale_calls/data.py:64-71 | the loop, given rows whose labels all index, appends exactly the negatives and the positives of those rows, in order, to what it has collected |
| Records.PartitionFromErr | examples/whale_calls/data.py:66-67 | the loop fails on rows with a label outside -2..1 |
| Records.PartitionSpec | examples/whale_calls/data.py:64-71 | partitioning succeeds iff every label indexes; it then yields the order-preserving filters of label ≠ 1 and label == 1; on failure the error names a label that does not index |
| Records.ClassesCoverRows | examples/whale_calls/data.py:64-71 | the two class sizes add up to the row count, and together the classes hold exactly the records of all rows |
| Records.ClassLabelFiles | examples/whale_calls/data.py:56-71 | every positive record points at `data/pos.txt`; with labels in {0, 1} every negative record points at `data/neg.txt` |
| Records.MinusOneIsNegativeWithPositiveFile | examples/whale_calls/data.py:66-71 | a row labelled -1 is filed as negative with the label file `data/pos.txt` |
| Split.Audios | examples/whale_calls/data.py:81 | the audio paths of a list of records, one per record, in order |
| Split.TrainValCoverAll | examples/whale_calls/data.py:73-78 | for every fraction, the sizes of train and val add up to the size of all, and together train and val hold exactly the records of all |
| Split.SplitAtFloor | examples/whale_calls/data.py:73-78 | for a fraction in [0, 1], each class is cut at floor(len·frac): train is the two prefixes and val the two suffixes |
| Split.NoiseIsNegativeTrainPrefix | examples/whale_calls/data.py:77-81 | noise is as long as the negative training prefix, and its i-th path is the audio of the i-th train record, which is the i-th negative |
| Split.NoiseInTrainAsNegative | examples/whale_calls/data.py:77-81 | when negatives point at `data/neg.txt`, every noise path appears in train paired with `data/neg.txt` |
| Split.HundredAndFiftyAtFourFifths | examples/whale_calls/data.py:73-78 | 100 negatives and 50 positives at the default 0.8 give 120 train, 30 val and 80 noise entries |
| Split.EmptySets | examples/whale_calls/data.py:73-78 | for a fraction in [0, 1], all is empty iff both classes are, val iff both classes are cut at their full length, and train iff both are cut at 0 |
| Split.FullSplitPoint | examples/whale_calls/data.py:73 | a fraction equal to 1 cuts a class at its full length |
| Split.FullFractionEmptiesVal | examples/whale_calls/data.py:73-78 | at `train_frac = 1` val is empty and train holds every record |
| ManifestFormat.FirstIndexOf | examples/whale_calls/data.py:93-94 | the first position of a character, or none iff it does not occur |
| ManifestFormat.FirstIndexAfter | examples/whale_calls/data.py:93-94 | in `a + c + b` with no c in a, the first c is at position len(a) |
| ManifestFormat.PairRows | examples/whale_calls/data.py:93-94 | one `audio,label` row per record, in order |
| ManifestFormat.PairRowRoundTrip | examples/whale_calls/data.py:93-94 | a two-column row splits back at its first comma into the record it was written from, when the audio path has no comma |
| ManifestFormat.PairRowHasOneComma | examples/whale_calls/data.py:93-94 | a two-column row of comma-free fields holds exactly one comma |
| ManifestFormat.LinesStep | examples/whale_calls/data.py:94 | a newline-free row followed by a newline reads back as that row, then whatever follows |
| ManifestFormat.LinesOfFileText | examples/whale_calls/data.py:93-94 | a file of newline-terminated rows reads back as exactly those rows; a one-column manifest (`fmt='%s'`) is this file of its paths, so it reads back as its list of newline-free paths |
| ManifestFormat.ReadPairRows | examples/whale_calls/data.py:93-94 | two-column rows parse back as exactly the records they were written from |
| ManifestFormat.PairManifestRoundTrip | examples/whale_calls/data.py:93-94 | a two-column manifest of writable records reads back as exactly its list |
| Ingest.ManifestPathShape | examples/whale_calls/data.py:30-32 | each manifest path is the extraction directory, `/`, the set's name and `-index.csv`; the extraction directory is `<out>/whale-extracted` |
| Ingest.ManifestPathsDistinct | examples/whale_calls/data.py:31-32 | the five manifest paths are pairwise different |
| Ingest.LogLinesDiffer | examples/whale_calls/data.py:39-43 | the eval and subm files name different log files |
| Ingest.CfgVariants | examples/whale_calls/data.py:37-47 | whatever order the dictionary lists its items in, the eval file has 6 lines and the subm file 8; they share every line but the log line, which differs, and the subm file ends with the model and submission paths |
| Ingest.ShuffleSets | examples/whale_calls/data.py:87-91 | all, val, train and noise keep their multisets; test keeps its order |
| Ingest.IngestWhales | examples/whale_calls/data.py:24-96 | the configuration files are written first on every run; when all five manifests exist, the step returns their paths without extracting or writing more; otherwise it extracts `whale_data.zip` into the extraction directory; success always returns the five paths; past the short-circuit the step fails iff `train.csv` has exactly one data row, or some label does not index, or one of all, val and train is empty |
| Ingest.FirstEmptyPairSet | examples/whale_calls/data.py:89-94 | names no set iff all, val and train are all non-empty; otherwise it names an empty one among them, and every set written before it is non-empty |
| Ingest.ShuffleKeepsFirstEmpty | examples/whale_calls/data.py:87-91 | shuffling changes no set's emptiness, so the first empty two-column set is the same before and after |
| Ingest.SaveManifests | examples/whale_calls/data.py:89-96 | the manifest loop's files are always a prefix of the five manifests in set order; it returns the five paths iff none of all, val and train is empty, after writing all five; otherwise the files stop at the first empty one, which is left empty, and the error names that file |
| Ingest.IngestSaves | examples/whale_calls/data.py:37-96 | past the short-circuit, with no data rows or at least two and with indexable labels, the step returns what the manifest loop returns, and writes the configuration files, then the label files, then what the manifest loop writes |
| Ingest.LabelErrorFails | examples/whale_calls/data.py:56-71 | past the short-circuit, with no data rows or at least two, a label outside the indexable range of `lbl_files` makes the step fail with an index error naming such a label of `train.csv`, after writing only the configuration files and the two label files, so no manifest is written |
| Ingest.EmptyPairManifestText | examples/whale_calls/data.py:94 | the manifest of an empty two-column set is an empty file |
| Ingest.EmptyPairSetFails | examples/whale_calls/data.py:89-94 | with no data rows or at least two, when the k-th of all, val, train is the first empty set, the step returns that manifest's error, leaves that manifest empty, writes the manifests before it unchanged and writes nothing after it |
| Ingest.FullFractionEmptiesValFirst | examples/whale_calls/data.py:73-78 | at `train_frac = 1` a non-empty `train.csv` makes val the first empty two-column set |
| Ingest.FullFractionFails | examples/whale_calls/data.py:73-94 | at `train_frac = 1` every run past the short-circuit on a `train.csv` of at least two data rows with indexable labels fails on the `val` manifest, which it leaves empty, after writing `all` |
| Ingest.HeaderOnlyCsvFails | examples/whale_calls/data.py:62-94 | a `train.csv` with no data rows makes every run past the short-circuit fail on the `all` manifest, which it leaves empty |
| Ingest.SingleRowFails | examples/whale_calls/data.py:58-66 | past the short-circuit, a `train.csv` with exactly one data row makes the step fail with the `TypeError` of iterating a 0-d array, whatever the label, after writing only the configuration files and the two label files |
| Ingest.PairSetsNeedTwoRows | examples/whale_calls/data.py:62-94 | when none of all, val and train is empty, `train.csv` had at least two data rows, so the one-row failure and the manifest writes never meet |
| Ingest.IngestWrites | examples/whale_calls/data.py:37-94 | when the step writes all five manifests, the writes are the configuration files, the label files and the five manifests, in that order |
| Ingest.IngestManifestWrites | examples/whale_calls/data.py:89-94 | when the step writes all five manifests, writes 4 to 8 are the manifests of the shuffled sets at their paths |
| Ingest.ManifestWritePaths | examples/whale_calls/data.py:89-96 | the i-th manifest written goes to the i-th returned path |
| Ingest.ManifestsWrittenToReturnedPaths | examples/whale_calls/data.py:89-96 | when the step writes all five manifests, it writes them to exactly the five returned paths, in the returned order |
| Ingest.RecordOfWritable | examples/whale_calls/data.py:67 | a row with no comma or newline in its file name gives a record that survives the manifest format |
| Ingest.ClassesWritable | examples/whale_calls/data.py:64-71 | the classes of writable rows are writable and together hold the records of all rows |
| Ingest.ShuffledSetsContents | examples/whale_calls/data.py:76-91 | after shuffling, all is a permutation of neg + pos, train and val together are one, noise is a permutation of the negative prefix's paths, and test is unchanged |
| Ingest.PairTextsReadBack | examples/whale_calls/data.py:93-94 | the all, val and train manifests of sets drawn from writable records read back as exactly their lists |
| Ingest.SetsReadBack | examples/whale_calls/data.py:76-94 | the five manifests of the shuffled sets read back as their lists, with the permutation facts above |
| Ingest.TrainNoiseReadBack | examples/whale_calls/data.py:77-94 | the train and noise manifests read back as exactly their lists |
| Ingest.NoiseInTrainAfterShuffle | examples/whale_calls/data.py:77-91 | after shuffling, every noise path is still in train paired with `data/neg.txt` |
| Ingest.ManifestContents | examples/whale_calls/data.py:64-94 | reading back the written manifests: all is a permutation of the rows' records; train and val together are one; noise is a permutation of the negative prefix's paths; test is the listed files in their order |
| Ingest.NoiseManifestInTrainManifest | examples/whale_calls/data.py:77-94 | with labels 0 and 1, every path read back from the noise manifest is read back from the train manifest, paired with `data/neg.txt` |
| Ingest.SecondRunSkips | examples/whale_calls/data.py:49-50 | once a successful run's files exist, a second run with the same output directory returns the same paths, extracts nothing and rewrites only the configuration files |
| LoaderConfig.CommonConfig | examples/whale_calls/data.py:105-120 | the dictionary has exactly the seven fixed keys and `label`, and its `audio` section exactly the four framing keys; it carries the caller's manifest file, root, batch size and cache directory, and a macrobatch is twelve minibatches |
| LoaderConfig.TrainConfig | examples/whale_calls/data.py:128-138 | removing the shuffle entries and the noise entries gives back the common configuration, so nothing else changes; shuffling is on every epoch under the given seed; noise entries are present iff a noise manifest is given |
| LoaderConfig.TrainKeys | examples/whale_calls/data.py:128-138 | the training dictionary's keys are the common keys plus the three shuffle keys; its `audio` keys are the common ones plus the four noise keys exactly when a noise manifest is given |
| LoaderConfig.TrainNoiseSettings | examples/whale_calls/data.py:134-138 | with a noise manifest, noise comes from that manifest under the configuration's own manifest root, with probability 0.5 and level range [0.0, 0.5] |
| LoaderConfig.TestConfig | examples/whale_calls/data.py:143-146 | the type is `audio` and there is no label section; restoring the common type `audio,label` and the label section gives back the common configuration, so nothing else changes |
| LoaderConfig.TestKeys | examples/whale_calls/data.py:143-146 | the test dictionary's keys are the common keys without `label` |

## Left out

- Archive extraction, file reading and file writing are not performed. The extraction is recorded as a value, and each written file as its path and full text.
- `np.genfromtxt` parsing of `train.csv` is not modelled. The parsed rows are an input. Of its quirks, the 0-d array for a single data row is modelled (`Records.ParsedAsRows`). Two are left out:
  - file names come back as bytes under Python 3 with `dtype=None`;
  - a malformed row raises a parse error.
- The model follows Python 2, where `np.genfromtxt` with `dtype=None` gives file names as `str` and `TrainRow.aiff` is a string. Under Python 3 those names are `bytes`. Then `os.path.join('data', 'train', aiff)` (examples/whale_calls/data.py:67) raises `TypeError` on the first data row, after the label files are written. So under Python 3, any run past the short-circuit with a non-empty `train.csv` fails before writing a manifest. The model does not show that failure.
- `np.savetxt` is modelled by the text it writes and, for an empty list under the two-field format, by an empty file followed by the error `EmptyPairManifest`. The exception's class is not modelled: numpy raised `AttributeError` ("fmt has wrong number of % formats") for this in its older releases and raises `ValueError` in later ones.
- A missing `whale_data.zip`, a missing `data/train.csv` inside it, and any other failure to open, extract or write a file are not modelled. The model assumes these files exist and every write succeeds.
- The `glob` of the test directory and `os.path.relpath` are not modelled. Their result is an input: the relative test paths, in enumeration order.
- numpy's generator is an abstract stream `Draws` of natural numbers. Position i takes `j = draw mod (i + 1)`, one draw per swap. numpy's bounded rejection sampling and its Mersenne Twister state are left out. No property depends on which permutation results.
- Ingest.ShuffleSets: states that each set is a permutation of its input, not which permutation seed 0 produces, because the generator is abstract.
- The float `train_frac` is the exact fraction `num/den`. Floating-point rounding in `len * train_frac` is not modelled.
- `os.path.realpath(__file__)` is not computed. The script directory is an input.
- The order of `manifests.items()` is the input `Env.itemOrder`. CPython 3.6 and later list the keys in insertion order (all, val, train, noise, test), which the language guarantees from 3.7; Python 2.7 lists them in hash order, and Python 3.3 to 3.5 in an order that can differ between processes. Every property about the configuration files holds for any order, and the model does not require it to be a permutation of the five names.
- `get_data_cache_or_nothing` is not modelled. Its answer is the `cacheRoot` parameter, stored as given.
- The loader dictionaries are records with one field per key. A key that may be absent is an `Option` field, and `LoaderConfig.Keys` gives the key set. The `noise_level` list of two floats is the field pair `levelLow`, `levelHigh`. Floats are `real`.
- `AeonDataLoader`, `OneHot`, `TypeCast` and `wrap_dataloader` are not modelled. They are calls into the framework; the model stops at the dictionary handed to the loader.
- `make_val_loader` has no member of its own, because it passes `common_config` unchanged (`LoaderConfig.CommonConfig`).
- The command-line entry point is not modelled. It only parses arguments.
- The AlexNet training script is not modelled. It has no logic of its own beyond wiring framework objects together.
- Python dictionary aliasing is not modelled. `common_config` builds a fresh dictionary on every call, so its in-place edits are modelled as record updates.
