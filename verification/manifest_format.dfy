/** The text of a manifest file as `np.savetxt` writes it, and how it reads back. */
module ManifestFormat {
  import opened Wrappers
  import opened Records

  /** The position of the first `c` in `s`, if any. */
  function FirstIndexOf(s: string, c: char): (r: Option<nat>)
    ensures r.None? <==> c !in s
    ensures r.Some? ==> r.value < |s| && s[r.value] == c && c !in s[..r.value]
  {
    if s == [] then None
    else if s[0] == c then Some(0)
    else match FirstIndexOf(s[1..], c)
      case None => None
      case Some(i) =>
        assert s[..i + 1] == [s[0]] + s[1..][..i];
        Some(i + 1)
  }

  /** The first `c` in `a + [c] + b` sits right after `a` when `a` has none. */
  lemma FirstIndexAfter(a: string, c: char, b: string)
    requires c !in a
    ensures FirstIndexOf(a + [c] + b, c) == Some(|a|)
  {
    var s := a + [c] + b;
    var r := FirstIndexOf(s, c);
    assert s[|a|] == c;
    assert forall k :: 0 <= k < |a| ==> s[k] == a[k] && s[k] != c;
    assert forall k :: 0 <= k < r.value ==> s[..r.value][k] == s[k] && s[k] != c;
  }

  /** A row of a two-column manifest (`fmt='%s,%s'`). */
  function PairRow(r: Record): string {
    r.audio + "," + r.labelFile
  }

  /** The rows of the two-column manifests. */
  function PairRows(rs: seq<Record>): (rows: seq<string>)
    ensures |rows| == |rs|
    ensures forall i :: 0 <= i < |rs| ==> rows[i] == PairRow(rs[i])
  {
    if rs == [] then [] else [PairRow(rs[0])] + PairRows(rs[1..])
  }

  /** The file text: every row followed by a newline, and nothing else. A one-column
      manifest (`fmt='%s'`) writes each path unchanged as its row, so its text is
      `FileText` of the paths themselves. */
  function FileText(rows: seq<string>): string {
    if rows == [] then "" else rows[0] + "\n" + FileText(rows[1..])
  }

  /** Reading a file back as lines, each ended by a newline or by the end of the text. */
  function Lines(text: string): seq<string>
    decreases |text|
  {
    if text == "" then []
    else match FirstIndexOf(text, '\n')
      case None => [text]
      case Some(i) => [text[..i]] + Lines(text[i + 1..])
  }

  /** Reading a two-column row back: the fields before and after its first comma. */
  function ParseRow(line: string): Option<Record> {
    match FirstIndexOf(line, ',')
    case None => None
    case Some(i) => Some(Record(line[..i], line[i + 1..]))
  }

  /** Reading a two-column manifest back; a line with no comma makes it unreadable. */
  function ReadPairs(lines: seq<string>): Option<seq<Record>> {
    if lines == [] then Some([])
    else match (ParseRow(lines[0]), ReadPairs(lines[1..]))
      case (Some(r), Some(rest)) => Some([r] + rest)
      case _ => None
  }

  /** A comma-free audio path makes a two-column row read back as its record. */
  lemma PairRowRoundTrip(r: Record)
    requires ',' !in r.audio
    ensures ParseRow(PairRow(r)) == Some(r)
  {
    FirstIndexAfter(r.audio, ',', r.labelFile);
    assert PairRow(r) == r.audio + [','] + r.labelFile;
    var row := PairRow(r);
    assert row[..|r.audio|] == r.audio;
    assert row[|r.audio| + 1..] == r.labelFile;
  }

  /** A two-column row of comma-free fields has exactly one comma separator. */
  lemma PairRowHasOneComma(r: Record)
    requires ',' !in r.audio && ',' !in r.labelFile
    ensures multiset(PairRow(r))[','] == 1
  {
    assert PairRow(r) == r.audio + [','] + r.labelFile;
    assert multiset(r.audio)[','] == 0 && multiset(r.labelFile)[','] == 0;
  }

  /** A newline-free line followed by a newline reads back as that line, then the rest. */
  lemma LinesStep(line: string, rest: string)
    requires '\n' !in line
    ensures Lines(line + "\n" + rest) == [line] + Lines(rest)
  {
    var text := line + "\n" + rest;
    assert text == line + ['\n'] + rest;
    FirstIndexAfter(line, '\n', rest);
    assert text[..|line|] == line;
    assert text[|line| + 1..] == rest;
  }

  /** Dropping the first of a list of newline-free strings leaves newline-free strings. */
  lemma NewlineFreeTail(rows: seq<string>)
    requires rows != []
    requires forall i :: 0 <= i < |rows| ==> '\n' !in rows[i]
    ensures forall i :: 0 <= i < |rows[1..]| ==> '\n' !in rows[1..][i]
  {
    forall i | 0 <= i < |rows[1..]| ensures '\n' !in rows[1..][i] {
      assert rows[1..][i] == rows[i + 1];
    }
  }

  /** Rows free of newlines read back from the written file as exactly those rows. */
  lemma {:induction false} LinesOfFileText(rows: seq<string>)
    requires forall i :: 0 <= i < |rows| ==> '\n' !in rows[i]
    ensures Lines(FileText(rows)) == rows
  {
    if rows != [] {
      LinesStep(rows[0], FileText(rows[1..]));
      NewlineFreeTail(rows);
      LinesOfFileText(rows[1..]);
      assert [rows[0]] + rows[1..] == rows;
    }
  }

  /** Records whose audio paths are comma-free read back from their rows unchanged. */
  lemma {:induction false} ReadPairRows(rs: seq<Record>)
    requires forall i :: 0 <= i < |rs| ==> ',' !in rs[i].audio
    ensures ReadPairs(PairRows(rs)) == Some(rs)
  {
    if rs != [] {
      PairRowRoundTrip(rs[0]);
      assert forall i :: 0 <= i < |rs[1..]| ==> ',' !in rs[1..][i].audio by {
        forall i | 0 <= i < |rs[1..]| ensures ',' !in rs[1..][i].audio {
          assert rs[1..][i] == rs[i + 1];
        }
      }
      ReadPairRows(rs[1..]);
      assert PairRows(rs)[1..] == PairRows(rs[1..]);
      assert [rs[0]] + rs[1..] == rs;
    }
  }

  /** True if a record can be written as a row and read back: no comma in its audio
      path and no newline in either field. */
  predicate Writable(r: Record) {
    ',' !in r.audio && '\n' !in r.audio && '\n' !in r.labelFile
  }

  /** A two-column manifest of writable records reads back as exactly those records,
      in the order they were written. */
  lemma PairManifestRoundTrip(rs: seq<Record>)
    requires forall i :: 0 <= i < |rs| ==> Writable(rs[i])
    ensures ReadPairs(Lines(FileText(PairRows(rs)))) == Some(rs)
  {
    var rows := PairRows(rs);
    forall i | 0 <= i < |rows| ensures '\n' !in rows[i] {
      assert rows[i] == rs[i].audio + [','] + rs[i].labelFile;
    }
    LinesOfFileText(rows);
    ReadPairRows(rs);
  }
}
