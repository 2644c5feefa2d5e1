/** The labelled records of `train.csv` and their partition by class. */
module Records {
  import opened Wrappers
  import opened Paths

  /** One parsed row of `data/train.csv`: an audio file name and its integer label. */
  datatype TrainRow = TrainRow(aiff: string, lbl: int)

  /** A manifest record: the audio path and the label file, both relative to the
      extraction directory. */
  datatype Record = Record(audio: string, labelFile: string)

  /** The errors the ingest step can raise. */
  datatype IngestError =
    | LabelIndexError(lbl: int)   // `lbl_files[lbl]` with a label outside [-2, 1]
      /** `np.savetxt(manifest, [], fmt='%s,%s')`: numpy reads an empty list as one
          column, which the two-field format does not fit. */
    | EmptyPairManifest(manifest: string)
      /** `for aiff, lbl in train_records` over the 0-d array `np.genfromtxt` returns
          for a file with exactly one data row: iterating it raises `TypeError`. */
    | SingleRowNotIterable

  const NegLabelFile: string := "data/neg.txt"
  const PosLabelFile: string := "data/pos.txt"

  /** The two label files, indexed by label. */
  const LabelFiles: seq<string> := [NegLabelFile, PosLabelFile]

  /** The directory of the training clips, relative to the extraction directory. */
  const TrainDir: string := "data/train"

  /** The label files and the training directory are the paths the step joins from
      `data` and `neg.txt`, `pos.txt` and `train`. */
  lemma DataPaths()
    ensures LabelFiles == [Join("data", "neg.txt"), Join("data", "pos.txt")]
    ensures TrainDir == Join("data", "train")
  {
    assert NeedsSeparator("data") && !Absolute("neg.txt") && !Absolute("pos.txt") && !Absolute("train");
    assert "data" + "/" + "neg.txt" == NegLabelFile;
    assert "data" + "/" + "pos.txt" == PosLabelFile;
    assert "data" + "/" + "train" == TrainDir;
  }

  /** The audio path of a training clip is `os.path.join('data', 'train', aiff)`. */
  lemma TrainAudioPath(aiff: string)
    ensures Join(TrainDir, aiff) == Join3("data", "train", aiff)
  {
    DataPaths();
  }

  /** True if Python can index the two-element label-file list with `lbl`. */
  predicate IndexableLabel(lbl: int) {
    -2 <= lbl <= 1
  }

  /** `lbl_files[lbl]`, with Python's negative indices and its IndexError. */
  function LabelFile(lbl: int): (r: Result<string, IngestError>)
    ensures r.Ok? <==> IndexableLabel(lbl)
    ensures r.Err? ==> r.error == LabelIndexError(lbl)
    ensures lbl == 0 ==> r == Ok(NegLabelFile)
    ensures lbl == 1 ==> r == Ok(PosLabelFile)
    ensures lbl == -1 ==> r == Ok(PosLabelFile)
    ensures lbl == -2 ==> r == Ok(NegLabelFile)
  {
    if 0 <= lbl < 2 then Ok(LabelFiles[lbl])
    else if -2 <= lbl < 0 then Ok(LabelFiles[lbl + 2])
    else Err(LabelIndexError(lbl))
  }

  /** `np.genfromtxt` with `dtype=None` returns a 1-d array of rows, which the loop
      can iterate, unless the file has exactly one data row: then it returns that
      row as a 0-d array. */
  predicate ParsedAsRows(rows: seq<TrainRow>) {
    |rows| != 1
  }

  /** The record built for a row whose label can index the label-file list. */
  function RecordOf(row: TrainRow): (r: Record)
    requires IndexableLabel(row.lbl)
    ensures LabelFile(row.lbl) == Ok(r.labelFile)
    ensures r.audio == Join(TrainDir, row.aiff)
  {
    Record(Join(TrainDir, row.aiff), LabelFile(row.lbl).value)
  }

  /** The two classes of records; `neg` holds every label other than 1. */
  datatype Classes = Classes(neg: seq<Record>, pos: seq<Record>)

  /** The loop over the remaining `rows`, appending each record to `pos` when its label
      is 1 and to `neg` otherwise; the first unindexable label aborts it. */
  function PartitionFrom(rows: seq<TrainRow>, acc: Classes): Result<Classes, IngestError> {
    if rows == [] then Ok(acc)
    else
      match LabelFile(rows[0].lbl)
      case Err(e) => Err(e)
      case Ok(lf) =>
        var record := Record(Join(TrainDir, rows[0].aiff), lf);
        if rows[0].lbl == 1 then PartitionFrom(rows[1..], acc.(pos := acc.pos + [record]))
        else PartitionFrom(rows[1..], acc.(neg := acc.neg + [record]))
  }

  /** Splitting the rows of `train.csv` into negatives and positives. */
  function Partition(rows: seq<TrainRow>): Result<Classes, IngestError> {
    PartitionFrom(rows, Classes([], []))
  }

  /** True if every row's label can index the label-file list. */
  predicate Indexable(rows: seq<TrainRow>) {
    forall i :: 0 <= i < |rows| ==> IndexableLabel(rows[i].lbl)
  }

  /** Reference definition: the records of the rows labelled 1, in source order. */
  function Positives(rows: seq<TrainRow>): seq<Record>
    requires Indexable(rows)
  {
    if rows == [] then []
    else (if rows[0].lbl == 1 then [RecordOf(rows[0])] else []) + Positives(rows[1..])
  }

  /** Reference definition: the records of the rows not labelled 1, in source order. */
  function Negatives(rows: seq<TrainRow>): seq<Record>
    requires Indexable(rows)
  {
    if rows == [] then []
    else (if rows[0].lbl != 1 then [RecordOf(rows[0])] else []) + Negatives(rows[1..])
  }

  /** The records of all rows, in source order. */
  function AllRecords(rows: seq<TrainRow>): (r: seq<Record>)
    requires Indexable(rows)
    ensures |r| == |rows|
    ensures forall i :: 0 <= i < |rows| ==> r[i] == RecordOf(rows[i])
  {
    if rows == [] then [] else [RecordOf(rows[0])] + AllRecords(rows[1..])
  }

  /** The first row is indexable and so are the others exactly when all rows are. */
  lemma IndexableStep(rows: seq<TrainRow>)
    requires rows != []
    ensures Indexable(rows) <==> IndexableLabel(rows[0].lbl) && Indexable(rows[1..])
  {
    var tail := rows[1..];
    assert forall k :: 0 <= k < |tail| ==> tail[k] == rows[k + 1];
    if IndexableLabel(rows[0].lbl) && Indexable(tail) {
      forall k | 0 <= k < |rows| ensures IndexableLabel(rows[k].lbl) {
        if k > 0 { assert rows[k] == tail[k - 1]; }
      }
    }
  }

  /** Filing one record into its class, as one iteration of the loop does. */
  function File(acc: Classes, row: TrainRow): Classes
    requires IndexableLabel(row.lbl)
  {
    if row.lbl == 1 then acc.(pos := acc.pos + [RecordOf(row)])
    else acc.(neg := acc.neg + [RecordOf(row)])
  }

  /** On indexable rows the loop appends the reference filters of the remaining rows
      to what it has collected so far. */
  lemma {:induction false} PartitionFromOk(rows: seq<TrainRow>, acc: Classes)
    requires Indexable(rows)
    ensures PartitionFrom(rows, acc) == Ok(Classes(acc.neg + Negatives(rows), acc.pos + Positives(rows)))
  {
    if rows == [] {
      assert acc.neg + [] == acc.neg && acc.pos + [] == acc.pos;
    } else {
      IndexableStep(rows);
      var tail := rows[1..];
      var acc' := File(acc, rows[0]);
      assert PartitionFrom(rows, acc) == PartitionFrom(tail, acc');
      PartitionFromOk(tail, acc');
      var record := RecordOf(rows[0]);
      if rows[0].lbl == 1 {
        assert acc'.pos + Positives(tail) == acc.pos + ([record] + Positives(tail));
        assert Positives(rows) == [record] + Positives(tail);
        assert Negatives(rows) == Negatives(tail);
        assert acc' == Classes(acc.neg, acc.pos + [record]);
        assert acc.pos + Positives(rows) == acc'.pos + Positives(tail);
      } else {
        assert acc'.neg + Negatives(tail) == acc.neg + ([record] + Negatives(tail));
        assert Negatives(rows) == [record] + Negatives(tail);
        assert Positives(rows) == Positives(tail);
        assert acc' == Classes(acc.neg + [record], acc.pos);
        assert acc.neg + Negatives(rows) == acc'.neg + Negatives(tail);
      }
    }
  }

  /** When some label is not indexable the loop fails, naming such a label. */
  lemma {:induction false} PartitionFromErr(rows: seq<TrainRow>, acc: Classes)
    requires !Indexable(rows)
    ensures PartitionFrom(rows, acc).Err?
    ensures exists j :: 0 <= j < |rows| && !IndexableLabel(rows[j].lbl)
                        && PartitionFrom(rows, acc).error == LabelIndexError(rows[j].lbl)
  {
    IndexableStep(rows);
    if IndexableLabel(rows[0].lbl) {
      var tail := rows[1..];
      assert PartitionFrom(rows, acc) == PartitionFrom(tail, File(acc, rows[0]));
      PartitionFromErr(tail, File(acc, rows[0]));
      var j :| 0 <= j < |tail| && !IndexableLabel(tail[j].lbl)
               && PartitionFrom(tail, File(acc, rows[0])).error == LabelIndexError(tail[j].lbl);
      assert tail[j] == rows[j + 1];
    } else {
      assert PartitionFrom(rows, acc) == Err(LabelIndexError(rows[0].lbl));
    }
  }

  /** The partition succeeds exactly when every label is indexable, and then yields the
      two order-preserving filters; otherwise it reports an offending label. */
  lemma PartitionSpec(rows: seq<TrainRow>)
    ensures Partition(rows).Ok? <==> Indexable(rows)
    ensures Indexable(rows) ==> Partition(rows) == Ok(Classes(Negatives(rows), Positives(rows)))
    ensures Partition(rows).Err? ==>
      exists j :: 0 <= j < |rows| && Partition(rows).error == LabelIndexError(rows[j].lbl)
                  && !IndexableLabel(rows[j].lbl)
  {
    if Indexable(rows) {
      PartitionFromOk(rows, Classes([], []));
      assert [] + Negatives(rows) == Negatives(rows) && [] + Positives(rows) == Positives(rows);
    } else {
      PartitionFromErr(rows, Classes([], []));
    }
  }

  /** Every record lands in exactly one class: the class sizes add up to the row count,
      and together the classes hold exactly the records of all rows. */
  lemma {:induction false} ClassesCoverRows(rows: seq<TrainRow>)
    requires Indexable(rows)
    ensures |Negatives(rows)| + |Positives(rows)| == |rows|
    ensures multiset(Negatives(rows) + Positives(rows)) == multiset(AllRecords(rows))
  {
    if rows != [] {
      var tail := rows[1..];
      IndexableStep(rows);
      ClassesCoverRows(tail);
    }
  }

  /** Every positive record points at `data/pos.txt`; when the labels are 0 or 1,
      every negative record points at `data/neg.txt`. */
  lemma {:induction false} ClassLabelFiles(rows: seq<TrainRow>)
    requires Indexable(rows)
    ensures forall r :: r in Positives(rows) ==> r.labelFile == PosLabelFile
    ensures (forall i :: 0 <= i < |rows| ==> rows[i].lbl in {0, 1}) ==>
              forall r :: r in Negatives(rows) ==> r.labelFile == NegLabelFile
  {
    if rows != [] {
      assert Indexable(rows[1..]) by {
        forall k | 0 <= k < |rows[1..]| ensures IndexableLabel(rows[1..][k].lbl) {
          assert rows[1..][k] == rows[k + 1];
        }
      }
      ClassLabelFiles(rows[1..]);
      if forall i :: 0 <= i < |rows| ==> rows[i].lbl in {0, 1} {
        assert forall i :: 0 <= i < |rows[1..]| ==> rows[1..][i].lbl in {0, 1} by {
          forall i | 0 <= i < |rows[1..]| ensures rows[1..][i].lbl in {0, 1} {
            assert rows[1..][i] == rows[i + 1];
          }
        }
      }
    }
  }

  /** A label of -1 wraps around to the last label file: the row is filed as a
      negative, yet its record points at `data/pos.txt`. */
  lemma MinusOneIsNegativeWithPositiveFile(aiff: string)
    ensures Partition([TrainRow(aiff, -1)]) == Ok(Classes([Record(Join(TrainDir, aiff), PosLabelFile)], []))
  {
    var rows := [TrainRow(aiff, -1)];
    assert Indexable(rows);
    PartitionSpec(rows);
    assert rows[1..] == [];
    var record := Record(Join(TrainDir, aiff), PosLabelFile);
    assert RecordOf(rows[0]) == record;
    assert Negatives(rows) == [record] + Negatives([]) == [record];
    assert Positives(rows) == [] + Positives([]) == [];
  }
}
