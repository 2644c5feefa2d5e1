/** The whole ingest step: the two run configuration files, the existence
    short-circuit, the extraction, the label files and the five manifests. */
module Ingest {
  import opened Wrappers
  import opened Paths
  import opened PySlice
  import opened Shuffle
  import opened Records
  import opened Split
  import opened ManifestFormat

  /** The five manifests, in the order the step writes and returns them. */
  datatype SetName = All | Val | Train | Noise | Test

  const SetNames: seq<SetName> := [All, Val, Train, Noise, Test]

  function SetLabel(sn: SetName): string {
    match sn
    case All => "all"
    case Val => "val"
    case Train => "train"
    case Noise => "noise"
    case Test => "test"
  }

  /** The directory the archive is extracted into and the manifests are written to. */
  function ExtractDir(outDir: string): string {
    Join(outDir, "whale-extracted")
  }

  /** `<out>/whale-extracted/<name>-index.csv` */
  function ManifestPath(outDir: string, sn: SetName): string {
    Join(ExtractDir(outDir), SetLabel(sn) + "-index.csv")
  }

  /** The returned list `[manifests[sn] for sn in set_names]`. */
  function ManifestPaths(outDir: string): (ps: seq<string>)
    ensures |ps| == 5
    ensures forall i :: 0 <= i < 5 ==> ps[i] == ManifestPath(outDir, SetNames[i])
  {
    seq(5, i requires 0 <= i < 5 => ManifestPath(outDir, SetNames[i]))
  }

  /** Each manifest path is the extraction directory, a `/`, the set's name and
      `-index.csv`; the extraction directory is `<out>/whale-extracted` for an output
      directory that does not already end in `/`. */
  lemma ManifestPathShape(outDir: string, sn: SetName)
    ensures ManifestPath(outDir, sn) == ExtractDir(outDir) + "/" + SetLabel(sn) + "-index.csv"
    ensures NeedsSeparator(outDir) ==> ExtractDir(outDir) == outDir + "/whale-extracted"
  {
    var d := ExtractDir(outDir);
    assert NeedsSeparator(d);
  }

  /** The five returned paths are pairwise different, so each set has its own file. */
  lemma ManifestPathsDistinct(outDir: string)
    ensures |ManifestPaths(outDir)| == 5
    ensures forall i, j :: 0 <= i < j < 5 ==> ManifestPaths(outDir)[i] != ManifestPaths(outDir)[j]
  {
    var ps := ManifestPaths(outDir);
    forall i, j | 0 <= i < j < 5 ensures ps[i] != ps[j] {
      var a, b := SetNames[i], SetNames[j];
      assert ps[i] == ManifestPath(outDir, a) && ps[j] == ManifestPath(outDir, b);
      var x, y := SetLabel(a) + "-index.csv", SetLabel(b) + "-index.csv";
      assert x != y by {
        assert |SetLabel(a)| != |SetLabel(b)| || SetLabel(a)[0] != SetLabel(b)[0];
        if |x| == |y| { assert x[0] != y[0]; }
      }
      if ps[i] == ps[j] {
        JoinInjective(ExtractDir(outDir), x, y);
      }
    }
  }

  // ---------------------------------------------------------------------------
  // The run configuration files

  datatype RunType = Eval | Subm

  /** `sep.join(parts)` */
  function JoinWith(sep: string, parts: seq<string>): string {
    if |parts| == 0 then ""
    else if |parts| == 1 then parts[0]
    else parts[0] + sep + JoinWith(sep, parts[1..])
  }

  /** `', '.join([k + ':' + v for k, v in manifests.items()])`, where `order` is the
      order in which the interpreter lists the dictionary's keys. */
  function ManifestListCfg(order: seq<SetName>, outDir: string): string {
    JoinWith(", ", seq(|order|, i requires 0 <= i < |order| => SetLabel(order[i]) + ":" + ManifestPath(outDir, order[i])))
  }

  /** `manifest = [all:<path>, val:<path>, ...]` */
  function ManifestLine(order: seq<SetName>, outDir: string): string {
    "manifest = [" + ManifestListCfg(order, outDir) + "]"
  }

  /** `train_<runtype>.log` */
  function LogFileName(rt: RunType): string {
    match rt
    case Eval => "train_eval.log"
    case Subm => "train_subm.log"
  }

  /** `log = <out>/train_<runtype>.log` */
  function LogLine(rt: RunType, outDir: string): string {
    "log = " + Join(outDir, LogFileName(rt))
  }

  /** The fixed training settings. */
  const SettingLines: seq<string> := ["epochs = 16", "rng_seed = 0", "verbose = True"]

  /** The lines only the submission run type writes. */
  function SubmissionLines(outDir: string): seq<string> {
    [ "save_path = " + Join(outDir, "model.p"),
      "submission_file = " + Join(outDir, "subm.txt") ]
  }

  /** The manifest list and the manifest root, which open both files. */
  function RootLines(order: seq<SetName>, outDir: string): seq<string> {
    [ManifestLine(order, outDir), "manifest_root = " + ExtractDir(outDir)]
  }

  /** The lines of `whale_<runtype>.cfg`. */
  function CfgLines(rt: RunType, order: seq<SetName>, outDir: string): seq<string> {
    RootLines(order, outDir) + [LogLine(rt, outDir)]
    + SettingLines
    + (if rt == Subm then SubmissionLines(outDir) else [])
  }

  /** The two run types log to different files. */
  lemma LogLinesDiffer(outDir: string)
    ensures LogLine(Eval, outDir) != LogLine(Subm, outDir)
  {
    var e, s := LogLine(Eval, outDir), LogLine(Subm, outDir);
    var p := JoinPrefix(outDir);
    assert e == "log = " + (p + "train_eval.log");
    assert s == "log = " + (p + "train_subm.log");
    assert e[|p| + 12] == 'e' && s[|p| + 12] == 's';
  }

  /** The two configuration files differ only in their log line, and the submission
      file adds the model and submission paths after the shared lines. */
  lemma CfgVariants(order: seq<SetName>, outDir: string)
    ensures |CfgLines(Eval, order, outDir)| == 6 && |CfgLines(Subm, order, outDir)| == 8
    ensures forall i :: 0 <= i < 6 && i != 2 ==> CfgLines(Eval, order, outDir)[i] == CfgLines(Subm, order, outDir)[i]
    ensures CfgLines(Eval, order, outDir)[2] != CfgLines(Subm, order, outDir)[2]
    ensures CfgLines(Subm, order, outDir)[6..] == SubmissionLines(outDir)
  {
    LogLinesDiffer(outDir);
    var head := RootLines(order, outDir);
    assert CfgLines(Eval, order, outDir) == head + [LogLine(Eval, outDir)] + SettingLines;
    assert CfgLines(Subm, order, outDir) == head + [LogLine(Subm, outDir)] + SettingLines + SubmissionLines(outDir);
    DifferOnlyAt(head, LogLine(Eval, outDir), LogLine(Subm, outDir), SettingLines, SubmissionLines(outDir));
  }

  /** Two lists built around different middle entries agree everywhere else. */
  lemma DifferOnlyAt<T>(head: seq<T>, x: T, y: T, tail: seq<T>, extra: seq<T>)
    ensures var a, b := head + [x] + tail, head + [y] + tail + extra;
      && |a| == |head| + 1 + |tail| && |b| == |a| + |extra|
      && (forall i :: 0 <= i < |a| && i != |head| ==> a[i] == b[i])
      && a[|head|] == x && b[|head|] == y
      && b[|a|..] == extra
  {
  }

  /** A file the step writes: its path and its full text. */
  datatype FileWrite = FileWrite(path: string, text: string)

  /** The two configuration files, written into the directory of the script. */
  function CfgWrites(scriptDir: string, order: seq<SetName>, outDir: string): seq<FileWrite> {
    [ FileWrite(Join(scriptDir, "whale_eval.cfg"), FileText(CfgLines(Eval, order, outDir))),
      FileWrite(Join(scriptDir, "whale_subm.cfg"), FileText(CfgLines(Subm, order, outDir))) ]
  }

  // ---------------------------------------------------------------------------
  // Shuffling and writing the manifests

  /** Shuffling every set but `test`, in the order all, val, train, noise, with one
      generator seeded once before the first of them. */
  function ShuffleSets(s: SetLists, draws: Draws): (r: SetLists)
    ensures multiset(r.all) == multiset(s.all)
    ensures multiset(r.val) == multiset(s.val)
    ensures multiset(r.train) == multiset(s.train)
    ensures multiset(r.noise) == multiset(s.noise)
    ensures r.test == s.test
  {
    var all := ShuffleFrom(s.all, draws, 0);
    var val := ShuffleFrom(s.val, draws, all.1);
    var train := ShuffleFrom(s.train, draws, val.1);
    var noise := ShuffleFrom(s.noise, draws, train.1);
    SetLists(all.0, val.0, train.0, noise.0, s.test)
  }

  /** The text of one manifest: two columns for all, val and train, one for noise and test. */
  function ManifestText(s: SetLists, sn: SetName): string {
    match sn
    case All => FileText(PairRows(s.all))
    case Val => FileText(PairRows(s.val))
    case Train => FileText(PairRows(s.train))
    case Noise => FileText(s.noise)
    case Test => FileText(s.test)
  }

  /** The five manifest files, in the order of `SetNames`. */
  function ManifestWrites(outDir: string, s: SetLists): (ms: seq<FileWrite>)
    ensures |ms| == 5
    ensures forall i :: 0 <= i < 5 ==> ms[i] == FileWrite(ManifestPath(outDir, SetNames[i]), ManifestText(s, SetNames[i]))
  {
    seq(5, i requires 0 <= i < 5 => FileWrite(ManifestPath(outDir, SetNames[i]), ManifestText(s, SetNames[i])))
  }

  /** The two label files, each holding its label (`np.savetxt([lbl], fmt='%d')`). */
  function LabelFileWrites(outDir: string): seq<FileWrite> {
    [ FileWrite(Join(ExtractDir(outDir), LabelFiles[0]), FileText(["0"])),
      FileWrite(Join(ExtractDir(outDir), LabelFiles[1]), FileText(["1"])) ]
  }

  // ---------------------------------------------------------------------------
  // The step

  /** What the step sees of the world: the script's directory, the order in which the
      interpreter lists the keys of the `manifests` dictionary, the paths that exist
      beforehand, the parsed rows of `data/train.csv` and the test files the glob
      lists (relative to the extraction directory, in enumeration order). */
  datatype Env = Env(
    scriptDir: string,
    itemOrder: seq<SetName>,
    existing: set<string>,
    trainCsv: seq<TrainRow>,
    testFiles: seq<string>)

  /** Extracting `archive` into `dest`. */
  datatype Extraction = Extraction(archive: string, dest: string)

  /** What the step did: its return value or the error it raised, whether it extracted
      the archive, and the files it wrote, in order. */
  datatype Ingested = Ingested(returned: Result<seq<string>, IngestError>, extraction: Option<Extraction>, writes: seq<FileWrite>)

  predicate AllManifestsExist(existing: set<string>, outDir: string) {
    forall sn :: ManifestPath(outDir, sn) in existing
  }

  /** The sets the step builds, before shuffling, once the labels are indexable. */
  function BuiltSets(env: Env, frac: Fraction): SetLists
    requires Indexable(env.trainCsv)
  {
    BuildSets(Classes(Negatives(env.trainCsv), Positives(env.trainCsv)), frac, env.testFiles)
  }

  /** True if `np.savetxt` can write every two-column manifest: none of all, val and
      train is empty. */
  predicate PairSetsNonEmpty(s: SetLists) {
    s.all != [] && s.val != [] && s.train != []
  }

  /** The two-column sets in the order the step writes them: all, val, train. */
  function PairSet(s: SetLists, k: nat): seq<Record>
    requires k < 3
  {
    if k == 0 then s.all else if k == 1 then s.val else s.train
  }

  /** The position, in writing order, of the first empty two-column set, if any. */
  function FirstEmptyPairSet(s: SetLists): (k: Option<nat>)
    ensures k.None? <==> PairSetsNonEmpty(s)
    ensures k.Some? ==> k.value < 3 && PairSet(s, k.value) == []
                        && forall j :: 0 <= j < k.value ==> PairSet(s, j) != []
  {
    if s.all == [] then Some(0)
    else if s.val == [] then Some(1)
    else if s.train == [] then Some(2)
    else None
  }

  /** Shuffling changes no set's emptiness, so the same two-column set is the first
      empty one before and after. */
  lemma ShuffleKeepsFirstEmpty(s: SetLists, draws: Draws)
    ensures FirstEmptyPairSet(ShuffleSets(s, draws)) == FirstEmptyPairSet(s)
  {
    var r := ShuffleSets(s, draws);
    assert |r.all| == |s.all| && |r.val| == |s.val| && |r.train| == |s.train| by {
      assert |multiset(r.all)| == |multiset(s.all)|;
      assert |multiset(r.val)| == |multiset(s.val)|;
      assert |multiset(r.train)| == |multiset(s.train)|;
    }
  }

  /** The manifest loop's `np.savetxt` calls, in the order all, val, train, noise,
      test. The files written are always a prefix of the five manifests. An empty
      two-column set makes `np.savetxt` raise after creating its file, so the writes
      end with that file, empty, and the error names it; otherwise all five are
      written and their paths returned. */
  function SaveManifests(outDir: string, sets: SetLists): (r: (Result<seq<string>, IngestError>, seq<FileWrite>))
    ensures 0 < |r.1| <= 5 && r.1 == ManifestWrites(outDir, sets)[..|r.1|]
    ensures r.0.Ok? <==> PairSetsNonEmpty(sets)
    ensures r.0.Ok? ==> r.0.value == ManifestPaths(outDir) && |r.1| == 5
    ensures r.0.Err? ==> && |r.1| == FirstEmptyPairSet(sets).value + 1
                         && r.1[|r.1| - 1].text == ""
                         && r.0.error == EmptyPairManifest(r.1[|r.1| - 1].path)
  {
    match FirstEmptyPairSet(sets)
    case None => (Ok(ManifestPaths(outDir)), ManifestWrites(outDir, sets))
    case Some(k) =>
      EmptyPairManifestText(sets, k);
      (Err(EmptyPairManifest(ManifestPath(outDir, SetNames[k]))), ManifestWrites(outDir, sets)[..k + 1])
  }

  /** `ingest_whales(input_dir, out_dir, train_frac)` with the generator's draws. */
  function IngestWhales(env: Env, inputDir: string, outDir: string, frac: Fraction, draws: Draws): (r: Ingested)
    ensures |r.writes| >= 2 && r.writes[..2] == CfgWrites(env.scriptDir, env.itemOrder, outDir)
    ensures r.returned.Ok? ==> r.returned.value == ManifestPaths(outDir)
    ensures AllManifestsExist(env.existing, outDir) ==> r.returned.Ok? && r.extraction == None && |r.writes| == 2
    ensures !AllManifestsExist(env.existing, outDir) ==>
              r.extraction == Some(Extraction(Join(inputDir, "whale_data.zip"), ExtractDir(outDir)))
    ensures r.returned.Err? <==>
              && !AllManifestsExist(env.existing, outDir)
              && (!ParsedAsRows(env.trainCsv) || !Indexable(env.trainCsv) || !PairSetsNonEmpty(BuiltSets(env, frac)))
  {
    var cfgs := CfgWrites(env.scriptDir, env.itemOrder, outDir);
    if AllManifestsExist(env.existing, outDir) then
      Ingested(Ok(ManifestPaths(outDir)), None, cfgs)
    else
      var extraction := Some(Extraction(Join(inputDir, "whale_data.zip"), ExtractDir(outDir)));
      PrefixOfAppend(cfgs, LabelFileWrites(outDir));
      if !ParsedAsRows(env.trainCsv) then
        Ingested(Err(SingleRowNotIterable), extraction, cfgs + LabelFileWrites(outDir))
      else
        PartitionSpec(env.trainCsv);
        match Partition(env.trainCsv)
        case Err(e) =>
          Ingested(Err(e), extraction, cfgs + LabelFileWrites(outDir))
        case Ok(classes) =>
          var built := BuildSets(classes, frac, env.testFiles);
          var sets := ShuffleSets(built, draws);
          ShuffleKeepsFirstEmpty(built, draws);
          var saved := SaveManifests(outDir, sets);
          var rest := LabelFileWrites(outDir) + saved.1;
          PrefixOfAppend(cfgs, rest);
          Ingested(saved.0, extraction, cfgs + rest)
  }

  /** True if the step gets past the short-circuit with indexable labels and no empty
      two-column set, and so writes all five manifests. */
  predicate WritesAllManifests(env: Env, outDir: string, frac: Fraction) {
    && !AllManifestsExist(env.existing, outDir)
    && Indexable(env.trainCsv)
    && PairSetsNonEmpty(BuiltSets(env, frac))
  }

  /** The first part of a concatenation is its prefix of that length. */
  lemma PrefixOfAppend<T>(a: seq<T>, b: seq<T>)
    ensures |a + b| >= |a| && (a + b)[..|a|] == a
  {
  }

  // ---------------------------------------------------------------------------
  // Properties of the written manifests

  /** True if a row of `train.csv` can travel through a manifest unchanged: its file
      name holds no comma and no newline. */
  predicate RowWritable(row: TrainRow) {
    ',' !in row.aiff && '\n' !in row.aiff
  }

  predicate AllWritable(rs: seq<Record>) {
    forall r :: r in rs ==> Writable(r)
  }

  /** The record of a writable row is writable. */
  lemma RecordOfWritable(row: TrainRow)
    requires IndexableLabel(row.lbl) && RowWritable(row)
    ensures Writable(RecordOf(row))
  {
    var r := RecordOf(row);
    if !Absolute(row.aiff) {
      assert r.audio == "data/train/" + row.aiff;
      assert ',' !in "data/train/" && '\n' !in "data/train/";
    }
    assert r.labelFile == NegLabelFile || r.labelFile == PosLabelFile;
    assert '\n' !in NegLabelFile && '\n' !in PosLabelFile;
  }

  /** Every record built from writable rows is writable. */
  lemma AllRecordsWritable(rows: seq<TrainRow>)
    requires Indexable(rows)
    requires forall i :: 0 <= i < |rows| ==> RowWritable(rows[i])
    ensures forall i :: 0 <= i < |rows| ==> Writable(AllRecords(rows)[i])
  {
    forall i | 0 <= i < |rows| ensures Writable(AllRecords(rows)[i]) {
      RecordOfWritable(rows[i]);
    }
  }

  /** A list is writable when the record at every index is. */
  lemma WritableAtEveryIndex(rs: seq<Record>)
    requires forall i :: 0 <= i < |rs| ==> Writable(rs[i])
    ensures AllWritable(rs)
  {
    forall r | r in rs ensures Writable(r) {
      var i :| 0 <= i < |rs| && rs[i] == r;
    }
  }

  /** Writability carries over to any list whose records all occur in a writable one. */
  lemma WritableSub(a: seq<Record>, b: seq<Record>)
    requires multiset(a) <= multiset(b) && AllWritable(b)
    ensures AllWritable(a)
    ensures forall i :: 0 <= i < |a| ==> Writable(a[i])
  {
    forall r | r in a ensures Writable(r) {
      assert r in multiset(a);
      assert r in multiset(b);
    }
    forall i | 0 <= i < |a| ensures Writable(a[i]) {
      assert a[i] in a;
    }
  }

  /** The shuffled sets the step writes once it is past the short-circuit and the
      labels are indexable. */
  function WrittenSets(env: Env, frac: Fraction, draws: Draws): SetLists
    requires Indexable(env.trainCsv)
  {
    ShuffleSets(BuiltSets(env, frac), draws)
  }

  /** When the step writes all five manifests, it writes the two configuration files,
      the two label files and the five manifests, in that order. */
  lemma IngestWrites(env: Env, inputDir: string, outDir: string, frac: Fraction, draws: Draws)
    requires WritesAllManifests(env, outDir, frac)
    ensures IngestWhales(env, inputDir, outDir, frac, draws).writes
            == CfgWrites(env.scriptDir, env.itemOrder, outDir) + (LabelFileWrites(outDir) + ManifestWrites(outDir, WrittenSets(env, frac, draws)))
  {
    PairSetsNeedTwoRows(env, frac);
    IngestSaves(env, inputDir, outDir, frac, draws);
    var sets := WrittenSets(env, frac, draws);
    ShuffleKeepsFirstEmpty(BuiltSets(env, frac), draws);
    var ms := ManifestWrites(outDir, sets);
    assert SaveManifests(outDir, sets).1 == ms[..5] == ms;
  }

  /** A two-column manifest of records that all occur, with multiplicity, among
      writable records reads back as exactly its list. */
  lemma PairsReadBack(rs: seq<Record>, records: seq<Record>)
    requires AllWritable(records) && multiset(rs) <= multiset(records)
    ensures ReadPairs(Lines(FileText(PairRows(rs)))) == Some(rs)
  {
    WritableSub(rs, records);
    PairManifestRoundTrip(rs);
  }

  /** The audio paths of the negative training prefix of writable records hold no
      newline, in whatever order. */
  lemma NoiseLinesWritable(c: Classes, frac: Fraction, noise: seq<string>)
    requires AllWritable(c.neg + c.pos)
    requires multiset(noise) == multiset(Audios(Take(c.neg, SplitPoint(|c.neg|, frac))))
    ensures forall i :: 0 <= i < |noise| ==> '\n' !in noise[i]
  {
    var prefix := Take(c.neg, SplitPoint(|c.neg|, frac));
    var audios := Audios(prefix);
    forall i | 0 <= i < |noise| ensures '\n' !in noise[i] {
      assert noise[i] in multiset(audios);
      var j :| 0 <= j < |audios| && audios[j] == noise[i];
      assert audios[j] == prefix[j].audio;
      assert prefix[j] == c.neg[j];
      assert c.neg[j] in c.neg + c.pos;
    }
  }

  /** The two-column manifests of sets drawn from writable records read back as
      exactly their lists. */
  lemma PairTextsReadBack(s: SetLists, records: seq<Record>)
    requires AllWritable(records)
    requires multiset(s.all) <= multiset(records)
    requires multiset(s.val) + multiset(s.train) <= multiset(records)
    ensures ReadPairs(Lines(ManifestText(s, All))) == Some(s.all)
    ensures ReadPairs(Lines(ManifestText(s, Val))) == Some(s.val)
    ensures ReadPairs(Lines(ManifestText(s, Train))) == Some(s.train)
  {
    PairsReadBack(s.all, records);
    PairsReadBack(s.val, records);
    PairsReadBack(s.train, records);
  }

  /** The noise manifest of newline-free paths reads back as exactly its list. */
  lemma NoiseTextReadBack(s: SetLists)
    requires forall i :: 0 <= i < |s.noise| ==> '\n' !in s.noise[i]
    ensures Lines(ManifestText(s, Noise)) == s.noise
  {
    LinesOfFileText(s.noise);
  }

  /** The one-column manifests of newline-free paths read back as exactly their lists. */
  lemma SingleTextsReadBack(s: SetLists)
    requires forall i :: 0 <= i < |s.noise| ==> '\n' !in s.noise[i]
    requires forall i :: 0 <= i < |s.test| ==> '\n' !in s.test[i]
    ensures Lines(ManifestText(s, Noise)) == s.noise
    ensures Lines(ManifestText(s, Test)) == s.test
  {
    NoiseTextReadBack(s);
    LinesOfFileText(s.test);
  }

  /** The shuffled sets of two classes: `all` is a permutation of the classes, `train`
      and `val` together are one, `noise` is a permutation of the audio paths of the
      negative training prefix, and `test` is unchanged. */
  lemma ShuffledSetsContents(c: Classes, frac: Fraction, test: seq<string>, draws: Draws)
    ensures var s := ShuffleSets(BuildSets(c, frac, test), draws);
      && multiset(s.all) == multiset(c.neg + c.pos)
      && multiset(s.val) + multiset(s.train) == multiset(c.neg + c.pos)
      && multiset(s.noise) == multiset(Audios(Take(c.neg, SplitPoint(|c.neg|, frac))))
      && s.test == test
  {
    TrainValCoverAll(c, frac, test);
  }

  /** The train and noise manifests written from the shuffled sets of two classes of
      writable records read back as exactly their lists, whatever the test files. */
  lemma TrainNoiseReadBack(c: Classes, frac: Fraction, test: seq<string>, draws: Draws)
    requires AllWritable(c.neg + c.pos)
    ensures var s := ShuffleSets(BuildSets(c, frac, test), draws);
      && ReadPairs(Lines(ManifestText(s, Train))) == Some(s.train)
      && Lines(ManifestText(s, Noise)) == s.noise
  {
    var s := ShuffleSets(BuildSets(c, frac, test), draws);
    ShuffledSetsContents(c, frac, test, draws);
    PairTextsReadBack(s, c.neg + c.pos);
    NoiseLinesWritable(c, frac, s.noise);
    NoiseTextReadBack(s);
  }

  /** Reading back the five manifests written from the shuffled sets of two classes
      of writable records: `all` comes back as a permutation of the two classes,
      `train` and `val` as two lists that together are one, `noise` as a permutation
      of the audio paths of the negative training prefix, and `test` unchanged. */
  lemma SetsReadBack(c: Classes, frac: Fraction, test: seq<string>, draws: Draws)
    requires AllWritable(c.neg + c.pos)
    requires forall i :: 0 <= i < |test| ==> '\n' !in test[i]
    ensures var s := ShuffleSets(BuildSets(c, frac, test), draws);
      var records := multiset(c.neg + c.pos);
      && ReadPairs(Lines(ManifestText(s, All))) == Some(s.all)
      && ReadPairs(Lines(ManifestText(s, Val))) == Some(s.val)
      && ReadPairs(Lines(ManifestText(s, Train))) == Some(s.train)
      && Lines(ManifestText(s, Noise)) == s.noise
      && Lines(ManifestText(s, Test)) == test
      && multiset(s.all) == records
      && multiset(s.val) + multiset(s.train) == records
      && multiset(s.noise) == multiset(Audios(Take(c.neg, SplitPoint(|c.neg|, frac))))
  {
    var s := ShuffleSets(BuildSets(c, frac, test), draws);
    ShuffledSetsContents(c, frac, test, draws);
    PairTextsReadBack(s, c.neg + c.pos);
    NoiseLinesWritable(c, frac, s.noise);
    SingleTextsReadBack(s);
  }

  /** The classes of writable rows are writable records, and together they are the
      records of all rows. */
  lemma ClassesWritable(rows: seq<TrainRow>)
    requires Indexable(rows)
    requires forall i :: 0 <= i < |rows| ==> RowWritable(rows[i])
    ensures AllWritable(Negatives(rows) + Positives(rows))
    ensures multiset(Negatives(rows) + Positives(rows)) == multiset(AllRecords(rows))
  {
    ClassesCoverRows(rows);
    AllRecordsWritable(rows);
    WritableRearranged(Negatives(rows) + Positives(rows), AllRecords(rows));
  }

  /** A rearrangement of records that are writable at every index is writable. */
  lemma WritableRearranged(a: seq<Record>, b: seq<Record>)
    requires multiset(a) == multiset(b)
    requires forall i :: 0 <= i < |b| ==> Writable(b[i])
    ensures AllWritable(a)
  {
    WritableAtEveryIndex(b);
    WritableSub(a, b);
  }

  /** When the step writes all five manifests, writes 4 to 8 are the manifests of the
      shuffled sets. */
  lemma IngestManifestWrites(env: Env, inputDir: string, outDir: string, frac: Fraction, draws: Draws)
    requires WritesAllManifests(env, outDir, frac)
    ensures var ws := IngestWhales(env, inputDir, outDir, frac, draws).writes;
      var s := WrittenSets(env, frac, draws);
      && |ws| == 9
      && ws[4] == FileWrite(ManifestPath(outDir, All), ManifestText(s, All))
      && ws[5] == FileWrite(ManifestPath(outDir, Val), ManifestText(s, Val))
      && ws[6] == FileWrite(ManifestPath(outDir, Train), ManifestText(s, Train))
      && ws[7] == FileWrite(ManifestPath(outDir, Noise), ManifestText(s, Noise))
      && ws[8] == FileWrite(ManifestPath(outDir, Test), ManifestText(s, Test))
  {
    IngestWrites(env, inputDir, outDir, frac, draws);
    var ws := IngestWhales(env, inputDir, outDir, frac, draws).writes;
    var ms := ManifestWrites(outDir, WrittenSets(env, frac, draws));
    WritesAfterFour(CfgWrites(env.scriptDir, env.itemOrder, outDir), LabelFileWrites(outDir), ms);
  }

  /** The entries after two lists of two are those of the third list. */
  lemma WritesAfterFour<T>(a: seq<T>, b: seq<T>, c: seq<T>)
    requires |a| == 2 && |b| == 2 && |c| == 5
    ensures var w := a + (b + c);
      |w| == 9 && w[4] == c[0] && w[5] == c[1] && w[6] == c[2] && w[7] == c[3] && w[8] == c[4]
  {
  }

  /** Past the short-circuit with indexable labels, the step returns what the manifest
      loop returns, and writes the configuration files, the label files and what
      the manifest loop writes. */
  lemma IngestSaves(env: Env, inputDir: string, outDir: string, frac: Fraction, draws: Draws)
    requires !AllManifestsExist(env.existing, outDir) && Indexable(env.trainCsv)
    requires ParsedAsRows(env.trainCsv)
    ensures var r := IngestWhales(env, inputDir, outDir, frac, draws);
      var saved := SaveManifests(outDir, WrittenSets(env, frac, draws));
      && r.returned == saved.0
      && r.writes == CfgWrites(env.scriptDir, env.itemOrder, outDir) + (LabelFileWrites(outDir) + saved.1)
  {
    PartitionSpec(env.trainCsv);
  }

  /** The manifest of an empty two-column set is an empty file. */
  lemma EmptyPairManifestText(s: SetLists, k: nat)
    requires k < 3 && PairSet(s, k) == []
    ensures ManifestText(s, SetNames[k]) == ""
  {
    assert PairRows([]) == [];
  }

  /** Past the short-circuit, a label that does not index `lbl_files` makes the step
      raise before any manifest: it names such a label of `train.csv`, and the only
      files written are the configuration files and the two label files. */
  lemma LabelErrorFails(env: Env, inputDir: string, outDir: string, frac: Fraction, draws: Draws)
    requires !AllManifestsExist(env.existing, outDir) && !Indexable(env.trainCsv)
    requires ParsedAsRows(env.trainCsv)
    ensures var r := IngestWhales(env, inputDir, outDir, frac, draws);
      && (exists j :: 0 <= j < |env.trainCsv| && !IndexableLabel(env.trainCsv[j].lbl)
                      && r.returned == Err(LabelIndexError(env.trainCsv[j].lbl)))
      && r.writes == CfgWrites(env.scriptDir, env.itemOrder, outDir) + LabelFileWrites(outDir)
  {
    PartitionSpec(env.trainCsv);
  }

  /** Past the short-circuit, a `train.csv` with exactly one data row makes the step
      raise when it iterates the parse, whatever the row's label: the only files
      written are the configuration files and the two label files. */
  lemma SingleRowFails(env: Env, inputDir: string, outDir: string, frac: Fraction, draws: Draws)
    requires !AllManifestsExist(env.existing, outDir) && |env.trainCsv| == 1
    ensures var r := IngestWhales(env, inputDir, outDir, frac, draws);
      && r.returned == Err(SingleRowNotIterable)
      && r.writes == CfgWrites(env.scriptDir, env.itemOrder, outDir) + LabelFileWrites(outDir)
  {
  }

  /** Non-empty `train` and `val` sets take at least two records, so a run that
      writes all five manifests had at least two data rows. */
  lemma PairSetsNeedTwoRows(env: Env, frac: Fraction)
    requires Indexable(env.trainCsv) && PairSetsNonEmpty(BuiltSets(env, frac))
    ensures |env.trainCsv| >= 2
  {
    var rows := env.trainCsv;
    var c := Classes(Negatives(rows), Positives(rows));
    ClassesCoverRows(rows);
    TrainValCoverAll(c, frac, env.testFiles);
  }

  /** When the set at position `k` of all, val, train is the first empty one, the
      step creates that manifest empty and raises: after the configuration and label
      files it writes the manifests before that one, then the empty file, and
      nothing more. */
  lemma EmptyPairSetFails(env: Env, inputDir: string, outDir: string, frac: Fraction, draws: Draws, k: nat)
    requires !AllManifestsExist(env.existing, outDir) && Indexable(env.trainCsv)
    requires ParsedAsRows(env.trainCsv)
    requires FirstEmptyPairSet(BuiltSets(env, frac)) == Some(k)
    ensures var r := IngestWhales(env, inputDir, outDir, frac, draws);
      var failed := ManifestPath(outDir, SetNames[k]);
      && r.returned == Err(EmptyPairManifest(failed))
      && |r.writes| == 5 + k
      && r.writes[..2] == CfgWrites(env.scriptDir, env.itemOrder, outDir)
      && r.writes[4 + k] == FileWrite(failed, "")
      && forall j :: 0 <= j < k ==> r.writes[4 + j] == ManifestWrites(outDir, WrittenSets(env, frac, draws))[j]
  {
    IngestSaves(env, inputDir, outDir, frac, draws);
    var sets := WrittenSets(env, frac, draws);
    ShuffleKeepsFirstEmpty(BuiltSets(env, frac), draws);
    var saved := SaveManifests(outDir, sets);
    var ms := ManifestWrites(outDir, sets);
    assert |saved.1| == k + 1 && saved.1 == ms[..k + 1];
    var cfgs := CfgWrites(env.scriptDir, env.itemOrder, outDir);
    WritesAfterFourPrefix(cfgs, LabelFileWrites(outDir), ms, k + 1);
    PrefixOfAppend(cfgs, LabelFileWrites(outDir) + ms[..k + 1]);
  }

  /** The entries after two lists of two are those of a prefix of the third list. */
  lemma WritesAfterFourPrefix<T>(a: seq<T>, b: seq<T>, c: seq<T>, m: nat)
    requires |a| == 2 && |b| == 2 && m <= |c|
    ensures var w := a + (b + c[..m]);
      |w| == 4 + m && forall j :: 0 <= j < m ==> w[4 + j] == c[j]
  {
  }

  /** At `train_frac = 1` a non-empty `train.csv` gives a non-empty `all` and an
      empty `val`, so `val` is the first empty two-column set. */
  lemma FullFractionEmptiesValFirst(env: Env, frac: Fraction)
    requires Indexable(env.trainCsv) && env.trainCsv != []
    requires frac.num == frac.den
    ensures FirstEmptyPairSet(BuiltSets(env, frac)) == Some(1)
  {
    var rows := env.trainCsv;
    var c := Classes(Negatives(rows), Positives(rows));
    var built := BuiltSets(env, frac);
    ClassesCoverRows(rows);
    FullFractionEmptiesVal(c, frac, env.testFiles);
    assert built.all == c.neg + c.pos;
  }

  /** At `train_frac = 1`, every run past the short-circuit on a `train.csv` of at
      least two data rows with indexable labels fails on the empty `val` manifest,
      after writing `all`. */
  lemma FullFractionFails(env: Env, inputDir: string, outDir: string, frac: Fraction, draws: Draws)
    requires !AllManifestsExist(env.existing, outDir) && Indexable(env.trainCsv)
    requires |env.trainCsv| >= 2
    requires frac.num == frac.den
    ensures var r := IngestWhales(env, inputDir, outDir, frac, draws);
      && r.returned == Err(EmptyPairManifest(ManifestPath(outDir, Val)))
      && |r.writes| == 6
      && r.writes[5] == FileWrite(ManifestPath(outDir, Val), "")
  {
    assert SetNames[1] == Val;
    FullFractionEmptiesValFirst(env, frac);
    EmptyPairSetFails(env, inputDir, outDir, frac, draws, 1);
  }

  /** A `train.csv` holding only its header leaves `all` empty, so a run past the
      short-circuit fails on the first manifest, which it leaves empty. */
  lemma HeaderOnlyCsvFails(env: Env, inputDir: string, outDir: string, frac: Fraction, draws: Draws)
    requires !AllManifestsExist(env.existing, outDir) && env.trainCsv == []
    ensures var r := IngestWhales(env, inputDir, outDir, frac, draws);
      && r.returned == Err(EmptyPairManifest(ManifestPath(outDir, All)))
      && |r.writes| == 5
      && r.writes[4] == FileWrite(ManifestPath(outDir, All), "")
  {
    assert SetNames[0] == All;
    assert ParsedAsRows(env.trainCsv);
    var s := BuiltSets(env, frac);
    assert Negatives(env.trainCsv) == [] && Positives(env.trainCsv) == [];
    assert PairSet(s, 0) == s.all == [];
    EmptyPairSetFails(env, inputDir, outDir, frac, draws, 0);
  }

  /** Reading back the manifests the step writes from `train.csv`: `all` is a
      permutation of the records of its rows; `train` and `val` together are too;
      `noise` is a permutation of the audio paths of the negative training prefix;
      `test` is the listed test files in their original order. */
  lemma ManifestContents(env: Env, inputDir: string, outDir: string, frac: Fraction, draws: Draws)
    requires WritesAllManifests(env, outDir, frac)
    requires forall i :: 0 <= i < |env.trainCsv| ==> RowWritable(env.trainCsv[i])
    requires forall i :: 0 <= i < |env.testFiles| ==> '\n' !in env.testFiles[i]
    ensures var ws := IngestWhales(env, inputDir, outDir, frac, draws).writes;
      var records := multiset(AllRecords(env.trainCsv));
      var neg := Negatives(env.trainCsv);
      && |ws| == 9
      && ReadPairs(Lines(ws[4].text)).Some?
      && multiset(ReadPairs(Lines(ws[4].text)).value) == records
      && ReadPairs(Lines(ws[5].text)).Some? && ReadPairs(Lines(ws[6].text)).Some?
      && multiset(ReadPairs(Lines(ws[5].text)).value) + multiset(ReadPairs(Lines(ws[6].text)).value) == records
      && multiset(Lines(ws[7].text)) == multiset(Audios(Take(neg, SplitPoint(|neg|, frac))))
      && Lines(ws[8].text) == env.testFiles
  {
    var rows := env.trainCsv;
    var c := Classes(Negatives(rows), Positives(rows));
    ClassesWritable(rows);
    SetsReadBack(c, frac, env.testFiles, draws);
    IngestManifestWrites(env, inputDir, outDir, frac, draws);
    var s := WrittenSets(env, frac, draws);
    assert s == ShuffleSets(BuildSets(c, frac, env.testFiles), draws);
    var ws := IngestWhales(env, inputDir, outDir, frac, draws).writes;
    assert ReadPairs(Lines(ws[4].text)) == Some(s.all);
    assert ReadPairs(Lines(ws[5].text)) == Some(s.val);
    assert ReadPairs(Lines(ws[6].text)) == Some(s.train);
    assert Lines(ws[7].text) == s.noise;
    assert Lines(ws[8].text) == env.testFiles;
  }

  /** When the step writes all five manifests, it writes them to the five returned
      paths, in the returned order. */
  lemma ManifestsWrittenToReturnedPaths(env: Env, inputDir: string, outDir: string, frac: Fraction, draws: Draws)
    requires WritesAllManifests(env, outDir, frac)
    ensures var r := IngestWhales(env, inputDir, outDir, frac, draws);
      && r.returned == Ok(ManifestPaths(outDir))
      && |r.writes| == 9
      && forall i :: 0 <= i < 5 ==> r.writes[4 + i].path == r.returned.value[i]
  {
    var s := WrittenSets(env, frac, draws);
    var ms := ManifestWrites(outDir, s);
    PairSetsNeedTwoRows(env, frac);
    IngestSaves(env, inputDir, outDir, frac, draws);
    ShuffleKeepsFirstEmpty(BuiltSets(env, frac), draws);
    assert SaveManifests(outDir, s) == (Ok(ManifestPaths(outDir)), ms[..5]);
    assert ms[..5] == ms;
    WritesAfterFour(CfgWrites(env.scriptDir, env.itemOrder, outDir), LabelFileWrites(outDir), ms);
    ManifestWritePaths(outDir, s);
  }

  /** Each manifest is written to the path returned at its position. */
  lemma ManifestWritePaths(outDir: string, s: SetLists)
    ensures forall i :: 0 <= i < 5 ==> ManifestWrites(outDir, s)[i].path == ManifestPaths(outDir)[i]
  {
  }

  /** Shuffling keeps every noise path in `train`, paired with `data/neg.txt`, when
      the negative class points at that file. */
  lemma NoiseInTrainAfterShuffle(c: Classes, frac: Fraction, test: seq<string>, draws: Draws)
    requires forall r :: r in c.neg ==> r.labelFile == NegLabelFile
    ensures var s := ShuffleSets(BuildSets(c, frac, test), draws);
      forall p :: p in s.noise ==> Record(p, NegLabelFile) in s.train
  {
    var built := BuildSets(c, frac, test);
    var s := ShuffleSets(built, draws);
    NoiseInTrainAsNegative(c, frac, test);
    forall p | p in s.noise ensures Record(p, NegLabelFile) in s.train {
      assert p in multiset(s.noise);
      assert p in built.noise;
      assert Record(p, NegLabelFile) in multiset(built.train);
    }
  }

  /** With labels 0 and 1 only, every path read back from the `noise` manifest is read
      back from the `train` manifest too, paired with `data/neg.txt`. */
  lemma NoiseManifestInTrainManifest(env: Env, inputDir: string, outDir: string, frac: Fraction, draws: Draws)
    requires !AllManifestsExist(env.existing, outDir)
    requires forall i :: 0 <= i < |env.trainCsv| ==> env.trainCsv[i].lbl in {0, 1}
    requires PairSetsNonEmpty(BuiltSets(env, frac))
    requires forall i :: 0 <= i < |env.trainCsv| ==> RowWritable(env.trainCsv[i])
    ensures var ws := IngestWhales(env, inputDir, outDir, frac, draws).writes;
      && |ws| == 9 && ReadPairs(Lines(ws[6].text)).Some?
      && forall p :: p in Lines(ws[7].text) ==> Record(p, NegLabelFile) in ReadPairs(Lines(ws[6].text)).value
  {
    var rows := env.trainCsv;
    assert Indexable(rows);
    var c := Classes(Negatives(rows), Positives(rows));
    ClassesWritable(rows);
    ClassLabelFiles(rows);
    NoiseInTrainAfterShuffle(c, frac, env.testFiles, draws);
    IngestManifestWrites(env, inputDir, outDir, frac, draws);
    var s := WrittenSets(env, frac, draws);
    assert s == ShuffleSets(BuildSets(c, frac, env.testFiles), draws);
    TrainNoiseReadBack(c, frac, env.testFiles, draws);
    var ws := IngestWhales(env, inputDir, outDir, frac, draws).writes;
    assert ReadPairs(Lines(ws[6].text)) == Some(s.train);
    assert Lines(ws[7].text) == s.noise;
  }

  /** The paths a list of writes creates. */
  function WrittenPaths(ws: seq<FileWrite>): set<string> {
    set w | w in ws :: w.path
  }

  /** A second run, once the first one's files exist, rewrites only the configuration
      files and returns the same paths without extracting anything. */
  lemma SecondRunSkips(env: Env, env2: Env, inputDir: string, inputDir2: string, outDir: string,
                       frac: Fraction, frac2: Fraction, draws: Draws, draws2: Draws)
    requires IngestWhales(env, inputDir, outDir, frac, draws).returned.Ok?
    requires env.existing + WrittenPaths(IngestWhales(env, inputDir, outDir, frac, draws).writes) <= env2.existing
    ensures var r2 := IngestWhales(env2, inputDir2, outDir, frac2, draws2);
      && r2.returned == IngestWhales(env, inputDir, outDir, frac, draws).returned
      && r2.extraction == None
      && r2.writes == CfgWrites(env2.scriptDir, env2.itemOrder, outDir)
  {
    var r1 := IngestWhales(env, inputDir, outDir, frac, draws);
    if !AllManifestsExist(env.existing, outDir) {
      forall sn ensures ManifestPath(outDir, sn) in env2.existing {
        var k := match sn case All => 0 case Val => 1 case Train => 2 case Noise => 3 case Test => 4;
        IngestManifestWrites(env, inputDir, outDir, frac, draws);
        assert r1.writes[4 + k] in r1.writes;
      }
    }
    assert AllManifestsExist(env2.existing, outDir);
  }
}
