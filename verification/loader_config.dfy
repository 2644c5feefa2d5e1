/** The option dictionaries the whale-call example hands to the audio data loader:
    the shared settings, and the edits the training and test loaders make to them.
    A dictionary is a record with one field per key; a key the dictionary may lack
    is an `Option` field, and `Keys` recovers the dictionary's key set. */
module LoaderConfig {
  import opened Wrappers

  /** The noise-mixing entries of the `audio` section: `noise_index_file`,
      `noise_root`, `add_noise_probability` and the two ends of `noise_level`. */
  datatype NoiseMixing = NoiseMixing(indexFile: string, root: string, probability: real, levelLow: real, levelHigh: real)

  /** The `audio` section: the framing entries, and noise mixing when present. */
  datatype AudioSection = AudioSection(
    sampleFreqHz: int,
    maxDuration: string,
    frameLength: string,
    frameStride: string,
    noise: Option<NoiseMixing>)

  /** The `label` section. */
  datatype LabelSection = LabelSection(binary: bool)

  /** The shuffling entries: `shuffle_manifest`, `shuffle_every_epoch`, `random_seed`. */
  datatype Shuffling = Shuffling(shuffleManifest: bool, shuffleEveryEpoch: bool, randomSeed: int)

  /** A loader configuration dictionary. */
  datatype Config = Config(
    manifestFilename: string,
    manifestRoot: string,
    minibatchSize: int,
    macrobatchSize: int,
    dataType: string,
    cacheDirectory: string,
    audio: AudioSection,
    labelSection: Option<LabelSection>,
    shuffling: Option<Shuffling>)

  /** The keys every configuration has. */
  const FixedKeys: set<string> := {
    "manifest_filename", "manifest_root", "minibatch_size", "macrobatch_size",
    "type", "cache_directory", "audio"
  }

  /** The keys of the shuffling entries. */
  const ShuffleKeys: set<string> := {"shuffle_manifest", "shuffle_every_epoch", "random_seed"}

  /** The keys of the framing entries of `audio`. */
  const FramingKeys: set<string> := {"sample_freq_hz", "max_duration", "frame_length", "frame_stride"}

  /** The keys of the noise-mixing entries of `audio`. */
  const NoiseKeys: set<string> := {"noise_index_file", "noise_root", "add_noise_probability", "noise_level"}

  /** The top-level keys of a configuration dictionary. */
  function Keys(c: Config): set<string> {
    FixedKeys
    + (if c.labelSection.Some? then {"label"} else {})
    + (if c.shuffling.Some? then ShuffleKeys else {})
  }

  /** The keys of an `audio` section. */
  function AudioKeys(a: AudioSection): set<string> {
    FramingKeys + (if a.noise.Some? then NoiseKeys else {})
  }

  /** Number of minibatches in one macrobatch. */
  const MacrobatchFactor := 12

  /** The configuration shared by the three loaders; the validation loader uses it
      as it is. `cacheRoot` is what the cache lookup answers. The dictionary has
      exactly the seven fixed keys and `label`, its `audio` section exactly the four
      framing keys; it carries the caller's manifest, root, batch size and cache
      directory, and a macrobatch is twelve minibatches. */
  function CommonConfig(manifestFile: string, manifestRoot: string, batchSize: int, cacheRoot: string): (c: Config)
    ensures Keys(c) == FixedKeys + {"label"} && AudioKeys(c.audio) == FramingKeys
    ensures c.manifestFilename == manifestFile && c.manifestRoot == manifestRoot
    ensures c.cacheDirectory == cacheRoot
    ensures c.minibatchSize == batchSize && c.macrobatchSize == 12 * c.minibatchSize
  {
    Config(
      manifestFilename := manifestFile,
      manifestRoot := manifestRoot,
      minibatchSize := batchSize,
      macrobatchSize := batchSize * MacrobatchFactor,
      dataType := "audio,label",
      cacheDirectory := cacheRoot,
      audio := AudioSection(2000, "2 seconds", "80 milliseconds", "40 milliseconds", None),
      labelSection := Some(LabelSection(false)),
      shuffling := None)
  }

  /** The training loader's configuration: the common one with shuffling switched on
      every epoch under `randomSeed`, and, when a noise manifest is given, noise
      mixing added to the `audio` section. Removing those two additions gives back
      the common configuration, so nothing else changes. */
  function TrainConfig(manifestFile: string, manifestRoot: string, batchSize: int, cacheRoot: string,
                       noiseFile: Option<string>, randomSeed: int): (c: Config)
    ensures c.(shuffling := None, audio := c.audio.(noise := None))
            == CommonConfig(manifestFile, manifestRoot, batchSize, cacheRoot)
    ensures c.shuffling == Some(Shuffling(true, true, randomSeed))
    ensures c.audio.noise.Some? <==> noiseFile.Some?
  {
    var common := CommonConfig(manifestFile, manifestRoot, batchSize, cacheRoot);
    var shuffled := common.(shuffling := Some(Shuffling(true, true, randomSeed)));
    match noiseFile
    case None => shuffled
    case Some(file) =>
      shuffled.(audio := common.audio.(noise := Some(NoiseMixing(file, manifestRoot, 0.5, 0.0, 0.5))))
  }

  /** The test loader's configuration: the common one reading audio only, with the
      label section dropped. Restoring the common type and label section gives back
      the common configuration, so nothing else changes. */
  function TestConfig(manifestFile: string, manifestRoot: string, batchSize: int, cacheRoot: string): (c: Config)
    ensures var common := CommonConfig(manifestFile, manifestRoot, batchSize, cacheRoot);
      && common.dataType == "audio,label"
      && c.(dataType := common.dataType, labelSection := common.labelSection) == common
    ensures c.dataType == "audio" && c.labelSection == None
  {
    var common := CommonConfig(manifestFile, manifestRoot, batchSize, cacheRoot);
    common.(dataType := "audio", labelSection := None)
  }

  /** The training configuration's keys are the common ones plus the three shuffle
      keys; its `audio` section gains the four noise keys exactly when a noise
      manifest is given. */
  lemma TrainKeys(manifestFile: string, manifestRoot: string, batchSize: int, cacheRoot: string,
                  noiseFile: Option<string>, randomSeed: int)
    ensures var common := CommonConfig(manifestFile, manifestRoot, batchSize, cacheRoot);
      var c := TrainConfig(manifestFile, manifestRoot, batchSize, cacheRoot, noiseFile, randomSeed);
      && Keys(c) == Keys(common) + ShuffleKeys
      && AudioKeys(c.audio) == AudioKeys(common.audio) + (if noiseFile.Some? then NoiseKeys else {})
  {
  }

  /** With a noise manifest, noise is read from that manifest under the same root as
      the training manifest, mixed in with probability one half at levels 0 to 0.5. */
  lemma TrainNoiseSettings(manifestFile: string, manifestRoot: string, batchSize: int, cacheRoot: string,
                           noiseFile: string, randomSeed: int)
    ensures var c := TrainConfig(manifestFile, manifestRoot, batchSize, cacheRoot, Some(noiseFile), randomSeed);
      c.audio.noise == Some(NoiseMixing(noiseFile, c.manifestRoot, 0.5, 0.0, 0.5))
  {
  }

  /** The test configuration's keys are the common ones without `label`. */
  lemma TestKeys(manifestFile: string, manifestRoot: string, batchSize: int, cacheRoot: string)
    ensures var common := CommonConfig(manifestFile, manifestRoot, batchSize, cacheRoot);
      var c := TestConfig(manifestFile, manifestRoot, batchSize, cacheRoot);
      Keys(c) == Keys(common) - {"label"}
  {
    assert "label" !in FixedKeys;
  }
}
