/** The upload screen (src/components/DataUpload.tsx): the CSV preview parser
    run when a file has been read, the canned synthetic dataset, the drop and
    file-picker entry points and the hand-over of the preview to the pipeline.
    Reading the file is left to the caller, which passes the file's name and
    its text. */
module DataUpload {
  import opened Types
  import opened Strings

  /** A file as the browser delivers it: its name and its content as text. */
  datatype File = File(name: string, text: string)

  /** The preview shows at most this many data lines (`lines.slice(1, 6)`). */
  const PreviewLines := 5

  /** One line split on ',' with every cell trimmed. */
  function Cells(line: string): (r: seq<string>)
    ensures |r| == |Split(line, ',')| == multiset(line)[','] + 1
    ensures forall i :: 0 <= i < |r| ==> r[i] == Trim(Split(line, ',')[i]) && IsTrimmed(r[i])
  {
    SplitCount(line, ',');
    var pieces := Split(line, ',');
    seq(|pieces|, i requires 0 <= i < |pieces| => Trim(pieces[i]))
  }

  /** `rows.filter(row => row.length === width)`. */
  function KeepWidth(rows: seq<seq<string>>, width: int): (r: seq<seq<string>>)
    ensures |r| <= |rows|
    ensures forall i :: 0 <= i < |r| ==> |r[i]| == width
  {
    if rows == [] then []
    else if |rows[0]| == width then [rows[0]] + KeepWidth(rows[1..], width)
    else KeepWidth(rows[1..], width)
  }

  /** The filter keeps the relative order of the rows it keeps: filtering a
      concatenation is the concatenation of the filtered parts. */
  lemma {:induction false} KeepWidthConcat(a: seq<seq<string>>, b: seq<seq<string>>, width: int)
    ensures KeepWidth(a + b, width) == KeepWidth(a, width) + KeepWidth(b, width)
  {
    if a != [] {
      KeepWidthConcat(a[1..], b, width);
      assert (a + b)[1..] == a[1..] + b;
    } else {
      assert a + b == b;
    }
  }

  /** The filter keeps exactly the rows of the right width. */
  lemma {:induction false} KeepWidthMembers(rows: seq<seq<string>>, width: int)
    ensures forall row :: row in KeepWidth(rows, width) <==> row in rows && |row| == width
  {
    if rows != [] {
      KeepWidthMembers(rows[1..], width);
      assert rows == [rows[0]] + rows[1..];
    }
  }

  /** When every row has the right width, none is dropped. */
  lemma {:induction false} KeepWidthAll(rows: seq<seq<string>>, width: int)
    requires forall i :: 0 <= i < |rows| ==> |rows[i]| == width
    ensures KeepWidth(rows, width) == rows
  {
    if rows != [] {
      KeepWidthAll(rows[1..], width);
    }
  }

  /** The lines the preview looks at: lines 1 to 5 of the text, fewer if it is shorter. */
  function Window(lines: seq<string>): (w: seq<string>)
    requires |lines| >= 1
    ensures |w| == if |lines| - 1 < PreviewLines then |lines| - 1 else PreviewLines
    ensures forall k :: 0 <= k < |w| ==> w[k] == lines[k + 1]
  {
    lines[1..if |lines| < PreviewLines + 1 then |lines| else PreviewLines + 1]
  }

  /** The candidate preview rows: the cells of each line of the window. */
  function CandidateRows(lines: seq<string>): (r: seq<seq<string>>)
    requires |lines| >= 1
    ensures |r| == |Window(lines)|
    ensures forall k :: 0 <= k < |r| ==> r[k] == Cells(lines[k + 1])
  {
    var window := Window(lines);
    seq(|window|, k requires 0 <= k < |window| => Cells(window[k]))
  }

  /** The body of `reader.onload`: the summary built from the file's text. */
  function ParseCsv(filename: string, csv: string): (d: AnalysisData)
    ensures d.filename == filename && !d.isSimulated
    ensures d.samples == multiset(csv)['\n']
    ensures d.features == |d.headers| >= 1
    ensures d.headers == Cells(Split(csv, '\n')[0])
    ensures forall h :: h in d.headers ==> IsTrimmed(h)
    ensures |d.rows| <= PreviewLines
    ensures forall i :: 0 <= i < |d.rows| ==> |d.rows[i]| == |d.headers|
  {
    SplitCount(csv, '\n');
    var lines := Split(csv, '\n');
    var headers := Cells(lines[0]);
    AnalysisData(filename, |lines| - 1, |headers|, headers, KeepWidth(CandidateRows(lines), |headers|), false)
  }

  /** The preview rows are exactly the lines among lines 1 to 5 of the text
      whose cell count matches the header; every cell is trimmed. */
  lemma PreviewRows(filename: string, csv: string)
    ensures forall row :: row in ParseCsv(filename, csv).rows <==>
              |row| == ParseCsv(filename, csv).features &&
              exists k :: 1 <= k <= PreviewLines && k < |Split(csv, '\n')| && row == Cells(Split(csv, '\n')[k])
    ensures forall row, j :: row in ParseCsv(filename, csv).rows && 0 <= j < |row| ==> IsTrimmed(row[j])
  {
    var lines := Split(csv, '\n');
    var candidates := CandidateRows(lines);
    var width := |Cells(lines[0])|;
    ParseCsvOfLines(filename, csv, lines);
    KeepWidthMembers(candidates, width);
    CandidatesAreLines(lines);
  }

  /** A candidate row is the cells of one of lines 1 to 5, and each of those
      lines gives a candidate. */
  lemma CandidatesAreLines(lines: seq<string>)
    requires |lines| >= 1
    ensures forall row :: row in CandidateRows(lines) <==>
              exists k :: 1 <= k <= PreviewLines && k < |lines| && row == Cells(lines[k])
  {
    var candidates := CandidateRows(lines);
    forall row | row in candidates
      ensures exists k :: 1 <= k <= PreviewLines && k < |lines| && row == Cells(lines[k])
    {
      var k :| 0 <= k < |candidates| && candidates[k] == row;
      assert row == Cells(lines[k + 1]);
    }
    forall row | exists k :: 1 <= k <= PreviewLines && k < |lines| && row == Cells(lines[k])
      ensures row in candidates
    {
      var k :| 1 <= k <= PreviewLines && k < |lines| && row == Cells(lines[k]);
      assert candidates[k - 1] == row;
    }
  }

  /** A cell a CSV writer can emit unchanged: trimmed, without ',' or a line break. */
  predicate PlainCell(c: string) {
    IsTrimmed(c) && ',' !in c && '\n' !in c
  }

  predicate PlainLine(cells: seq<string>) {
    |cells| >= 1 && forall i :: 0 <= i < |cells| ==> PlainCell(cells[i])
  }

  /** The text of a CSV file with the given header and data lines, one line
      per row, without a newline after the last line. */
  function CsvText(header: seq<string>, rows: seq<seq<string>>): string {
    Join(CsvLines(header, rows), '\n')
  }

  function CsvLines(header: seq<string>, rows: seq<seq<string>>): (lines: seq<string>)
    ensures |lines| == |rows| + 1 && lines[0] == Join(header, ',')
    ensures forall i :: 0 <= i < |rows| ==> lines[i + 1] == Join(rows[i], ',')
  {
    [Join(header, ',')] + seq(|rows|, i requires 0 <= i < |rows| => Join(rows[i], ','))
  }

  /** Splitting a line of plain cells gives the cells back. */
  lemma CellsOfLine(cells: seq<string>)
    requires PlainLine(cells)
    ensures Cells(Join(cells, ',')) == cells
    ensures '\n' !in Join(cells, ',')
  {
    SplitJoin(cells, ',');
    forall i | 0 <= i < |cells| ensures Trim(cells[i]) == cells[i] {
      TrimTrimmed(cells[i]);
    }
    JoinWithout(cells, ',', '\n');
  }

  /** The lines of a written file are exactly the lines it was written from. */
  lemma SplitCsvText(header: seq<string>, rows: seq<seq<string>>)
    requires PlainLine(header)
    requires forall i :: 0 <= i < |rows| ==> PlainLine(rows[i])
    ensures Split(CsvText(header, rows), '\n') == CsvLines(header, rows)
  {
    var lines := CsvLines(header, rows);
    forall i | 0 <= i < |lines| ensures '\n' !in lines[i] {
      if i == 0 {
        CellsOfLine(header);
      } else {
        CellsOfLine(rows[i - 1]);
      }
    }
    SplitJoin(lines, '\n');
  }

  /** The candidate rows of a written file are its first five rows. */
  lemma CandidatesOfCsvLines(header: seq<string>, rows: seq<seq<string>>)
    requires forall i :: 0 <= i < |rows| ==> PlainLine(rows[i])
    ensures CandidateRows(CsvLines(header, rows)) == rows[..if |rows| < PreviewLines then |rows| else PreviewLines]
  {
    var lines := CsvLines(header, rows);
    var shown := rows[..if |rows| < PreviewLines then |rows| else PreviewLines];
    var candidates := CandidateRows(lines);
    forall k | 0 <= k < |shown| ensures candidates[k] == shown[k] {
      CellsOfLine(rows[k]);
    }
  }

  /** The summary of a text, in terms of its lines. */
  lemma ParseCsvOfLines(filename: string, csv: string, lines: seq<string>)
    requires Split(csv, '\n') == lines
    ensures ParseCsv(filename, csv) ==
            AnalysisData(filename, |lines| - 1, |Cells(lines[0])|, Cells(lines[0]),
                         KeepWidth(CandidateRows(lines), |Cells(lines[0])|), false)
  {
  }

  /** Reading back what a CSV writer produced: the header comes back exactly,
      the sample count is the number of data lines, and the preview holds the
      first five of them and nothing after them. */
  lemma ParseCsvText(filename: string, header: seq<string>, rows: seq<seq<string>>)
    requires PlainLine(header)
    requires forall i :: 0 <= i < |rows| ==> PlainLine(rows[i]) && |rows[i]| == |header|
    ensures ParseCsv(filename, CsvText(header, rows)) ==
            AnalysisData(filename, |rows|, |header|, header,
                         rows[..if |rows| < PreviewLines then |rows| else PreviewLines], false)
    ensures |rows| <= PreviewLines ==> ParseCsv(filename, CsvText(header, rows)).rows == rows
  {
    SplitCsvText(header, rows);
    ParseCsvOfCsvLines(filename, CsvText(header, rows), header, rows);
  }

  /** The summary of any text whose lines are those of the given header and rows. */
  lemma ParseCsvOfCsvLines(filename: string, csv: string, header: seq<string>, rows: seq<seq<string>>)
    requires PlainLine(header)
    requires forall i :: 0 <= i < |rows| ==> PlainLine(rows[i]) && |rows[i]| == |header|
    requires Split(csv, '\n') == CsvLines(header, rows)
    ensures ParseCsv(filename, csv) ==
            AnalysisData(filename, |rows|, |header|, header,
                         rows[..if |rows| < PreviewLines then |rows| else PreviewLines], false)
  {
    var lines := CsvLines(header, rows);
    var shown := rows[..if |rows| < PreviewLines then |rows| else PreviewLines];
    ParseCsvOfLines(filename, csv, lines);
    CellsOfLine(header);
    assert Cells(lines[0]) == header;
    CandidatesOfCsvLines(header, rows);
    assert CandidateRows(lines) == shown;
    KeepWidthAll(shown, |header|);
  }

  /** A newline after the last line counts as one more sample, and for a
      one-column file the empty last line shows as a preview row with one
      empty cell. */
  lemma TrailingNewline()
    ensures var d := ParseCsv("x.csv", "x\n");
            d.samples == 1 && d.headers == ["x"] && d.rows == [[""]]
  {
    SplitPrefix("x", "", '\n');
    assert "x\n" == "x" + ['\n'] + "";
    CellsOfLine(["x"]);
    assert Cells("") == [""];
  }

  /** A preview the results table can render: every row as wide as the header. */
  predicate WellFormed(d: AnalysisData) {
    && |d.rows| <= PreviewLines
    && forall i :: 0 <= i < |d.rows| ==> |d.rows[i]| == |d.headers|
  }

  /** `generateSyntheticData`: the canned demonstration dataset. Its feature
      count (25) is not the number of preview columns (8). */
  function SyntheticData(): (d: AnalysisData)
    ensures d.samples == 150 && d.features == 25 && d.isSimulated
    ensures |d.headers| == 8 && |d.rows| == 5 && d.features != |d.headers|
    ensures WellFormed(d)
  {
    AnalysisData(
      "synthetic_dataset.csv", 150, 25,
      ["Sample_ID", "pH", "Temperature", "DO", "Turbidity", "Nitrate", "Species_A", "Species_B"],
      [["S001", "7.2", "18.5", "8.2", "2.1", "0.5", "120", "87"],
       ["S002", "6.8", "19.1", "7.9", "1.8", "0.3", "95", "112"],
       ["S003", "7.5", "17.8", "8.5", "2.3", "0.7", "143", "76"],
       ["S004", "6.9", "18.9", "8.1", "1.9", "0.4", "108", "98"],
       ["S005", "7.1", "18.2", "8.3", "2.0", "0.6", "132", "89"]],
      true)
  }

  /** The drop handler's test: there is a first file and its last four
      characters are ".csv", in lower case. Later files are never looked at. */
  function AcceptsDrop(files: seq<File>): (accepted: bool)
    ensures accepted <==> |files| > 0 && |files[0].name| >= 4
                          && files[0].name[|files[0].name| - 4..] == ['.', 'c', 's', 'v']
  {
    |files| > 0 && EndsWith(files[0].name, ".csv")
  }

  /** Files after the first change nothing. */
  lemma AcceptsDropFirstOnly(files: seq<File>, more: seq<File>)
    requires |files| > 0
    ensures AcceptsDrop(files + more) == AcceptsDrop(files)
  {
    assert (files + more)[0] == files[0];
  }

  /** The kinds of drag event the drop zone listens to. */
  datatype DragEvent = DragEnter | DragOver | DragLeave | DragOther

  /** The upload panel's state: whether a drag hovers over the drop zone, the
      file last chosen and the preview built so far, if any. */
  class UploadState {
    var dragActive: bool
    var uploadedFile: Option<File>
    var previewData: Option<AnalysisData>

    /** Every preview the panel holds can be rendered without a jagged row. */
    ghost predicate Valid()
      reads this
    {
      previewData.Some? ==> WellFormed(previewData.value)
    }

    constructor ()
      ensures Valid() && previewData == None && uploadedFile == None && !dragActive
    {
      dragActive := false;
      uploadedFile := None;
      previewData := None;
    }

    /** `handleDrag`: entering or moving over the zone highlights it, leaving
        clears the highlight, any other drag event changes nothing. */
    method HandleDrag(event: DragEvent)
      modifies this
      ensures dragActive == (if event == DragEnter || event == DragOver then true
                             else if event == DragLeave then false
                             else old(dragActive))
      ensures uploadedFile == old(uploadedFile) && previewData == old(previewData)
    {
      if event == DragEnter || event == DragOver {
        dragActive := true;
      } else if event == DragLeave {
        dragActive := false;
      }
    }

    /** `processFile`, including the reader's `onload` once the text is there. */
    method ProcessFile(file: File)
      requires Valid()
      modifies this
      ensures Valid()
      ensures uploadedFile == Some(file)
      ensures previewData == Some(ParseCsv(file.name, file.text))
      ensures dragActive == old(dragActive)
    {
      uploadedFile := Some(file);
      previewData := Some(ParseCsv(file.name, file.text));
    }

    /** `handleDrop`: the highlight goes off; only the first file, and only a
        ".csv" one, is processed. */
    method HandleDrop(files: seq<File>)
      requires Valid()
      modifies this
      ensures Valid()
      ensures !dragActive
      ensures uploadedFile == if AcceptsDrop(files) then Some(files[0]) else old(uploadedFile)
      ensures previewData == if AcceptsDrop(files) then Some(ParseCsv(files[0].name, files[0].text))
                             else old(previewData)
    {
      dragActive := false;
      if |files| > 0 && EndsWith(files[0].name, ".csv") {
        ProcessFile(files[0]);
      }
    }

    /** `handleFileChange`: the picker path processes the first file whatever its name. */
    method HandleFileChange(files: seq<File>)
      requires Valid()
      modifies this
      ensures Valid()
      ensures uploadedFile == if |files| > 0 then Some(files[0]) else old(uploadedFile)
      ensures previewData == if |files| > 0 then Some(ParseCsv(files[0].name, files[0].text))
                             else old(previewData)
      ensures dragActive == old(dragActive)
    {
      if |files| > 0 {
        ProcessFile(files[0]);
      }
    }

    /** `generateSyntheticData`: the canned dataset replaces the preview; the
        chosen file is kept. */
    method GenerateSyntheticData()
      requires Valid()
      modifies this
      ensures Valid()
      ensures previewData == Some(SyntheticData())
      ensures uploadedFile == old(uploadedFile) && dragActive == old(dragActive)
    {
      previewData := Some(SyntheticData());
    }

    /** `proceedWithData`: hands the preview over unchanged, or nothing when there is none. */
    method ProceedWithData() returns (submitted: Option<AnalysisData>)
      requires Valid()
      ensures submitted == previewData
      ensures submitted.Some? ==> WellFormed(submitted.value)
    {
      submitted := previewData;
    }
  }

  /** A header line without a newline after it is a dataset of zero samples
      with an empty preview. */
  lemma HeaderOnly(filename: string, csv: string)
    requires '\n' !in csv
    ensures ParseCsv(filename, csv).samples == 0
    ensures ParseCsv(filename, csv).rows == []
    ensures ParseCsv(filename, csv).headers == Cells(csv)
  {
    SplitNoSeparator(csv, '\n');
  }

  /** A parsed preview is well formed, like the synthetic one. */
  lemma ParsedWellFormed(filename: string, csv: string)
    ensures WellFormed(ParseCsv(filename, csv))
  {
  }
}
