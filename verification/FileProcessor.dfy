/**
 * The file processor of the backend: extraction dispatch on the file
 * extension, the text layout of a workbook, the error wrapping of the three
 * extractors, and the summary and metadata of an extracted text.
 *
 * The parsing libraries are not modelled: what each returns for the file (its
 * text, its sheets and cells, or the message it failed with) is an input.
 */
module FileProcessor {
  import opened Wrappers
  import opened Strings

  // ---------------------------------------------------------------------------
  // Parser results
  // ---------------------------------------------------------------------------

  /** A cell value as the workbook reader gives it: falsy (empty, `0`, `false`, …) or its `toString()` text. */
  datatype Cell = Falsy | Truthy(text: string)

  /** A worksheet: its name and the `values` of each of its rows, in order. */
  datatype Sheet = Sheet(name: string, rows: seq<seq<Cell>>)

  /**
   * What the three parsing libraries make of the file: the PDF text, the
   * workbook's sheets, the Word document's raw text, or in each case the
   * message the library failed with.
   */
  datatype Parsers = Parsers(pdf: Result<string>, workbook: Result<seq<Sheet>>, word: Result<string>)

  // ---------------------------------------------------------------------------
  // Workbook text layout
  // ---------------------------------------------------------------------------

  /** `cell ? cell.toString() : ''`. */
  function CellText(c: Cell): string
  {
    match c
    case Falsy => ""
    case Truthy(text) => text
  }

  function CellTexts(row: seq<Cell>): (r: seq<string>)
    ensures |r| == |row| && forall i | 0 <= i < |row| :: r[i] == CellText(row[i])
  {
    seq(|row|, i requires 0 <= i < |row| => CellText(row[i]))
  }

  /** One row of the text: its cell texts separated by tabs, then a newline. */
  function RowLine(row: seq<Cell>): string
  {
    Join(CellTexts(row), "\t") + "\n"
  }

  /** The banner line that opens each sheet, with a blank line before it. */
  function SheetHeader(name: string): string
  {
    "\n=== Sheet: " + name + " ===\n"
  }

  /** The lines of a sequence of rows, in order. */
  function RowsText(rows: seq<seq<Cell>>): string
  {
    if rows == [] then "" else RowsText(rows[..|rows| - 1]) + RowLine(rows[|rows| - 1])
  }

  function SheetText(sheet: Sheet): string
  {
    SheetHeader(sheet.name) + RowsText(sheet.rows)
  }

  /** The text of a workbook: each sheet's banner and rows, sheet after sheet. */
  function WorkbookText(sheets: seq<Sheet>): string
  {
    if sheets == [] then "" else WorkbookText(sheets[..|sheets| - 1]) + SheetText(sheets[|sheets| - 1])
  }

  /** The `eachRow` pass of one sheet: each row's line appended to `text`, in order. */
  method AppendRows(text: string, rows: seq<seq<Cell>>) returns (r: string)
    ensures r == text + RowsText(rows)
  {
    r := text;
    var k := 0;
    while k < |rows|
      invariant 0 <= k <= |rows|
      invariant r == text + RowsText(rows[..k])
    {
      var rowData := Join(CellTexts(rows[k]), "\t");
      r := r + rowData + "\n";
      assert rows[..k + 1][..k] == rows[..k];
      k := k + 1;
    }
    assert rows[..k] == rows;
  }

  /** The body of the worksheet loop: the sheet's banner, then its rows. */
  method AppendSheet(text: string, sheet: Sheet) returns (r: string)
    ensures r == text + SheetText(sheet)
  {
    r := text + SheetHeader(sheet.name);
    r := AppendRows(r, sheet.rows);
  }

  /** `extractExcel`: the workbook's text, or the reader's failure wrapped. */
  method ExtractExcel(workbook: Result<seq<Sheet>>) returns (r: Result<string>)
    ensures workbook.Ok? ==> r == Ok(WorkbookText(workbook.value))
    ensures workbook.Err? ==> r == Err("Failed to extract Excel: " + workbook.message)
  {
    if workbook.Err? {
      return Err("Failed to extract Excel: " + workbook.message);
    }
    var sheets := workbook.value;
    var extractedText := "";
    var s := 0;
    while s < |sheets|
      invariant 0 <= s <= |sheets|
      invariant extractedText == WorkbookText(sheets[..s])
    {
      var sheet := sheets[s];
      extractedText := AppendSheet(extractedText, sheet);
      assert sheets[..s + 1] == sheets[..s] + [sheet];
      WorkbookTextSnoc(sheets[..s], sheet);
      s := s + 1;
    }
    assert sheets[..s] == sheets;
    return Ok(extractedText);
  }

  lemma RowsTextSnoc(rows: seq<seq<Cell>>, row: seq<Cell>)
    ensures RowsText(rows + [row]) == RowsText(rows) + RowLine(row)
  {
    assert (rows + [row])[..|rows|] == rows;
  }

  /** Row text distributes over concatenation: rows keep their order. */
  lemma {:induction false} RowsTextAppend(a: seq<seq<Cell>>, b: seq<seq<Cell>>)
    ensures RowsText(a + b) == RowsText(a) + RowsText(b)
    decreases |b|
  {
    if b == [] {
      assert a + b == a;
    } else {
      var init, last := b[..|b| - 1], b[|b| - 1];
      assert b == init + [last];
      assert a + b == (a + init) + [last];
      calc {
        RowsText(a + b);
        RowsText((a + init) + [last]);
        { RowsTextSnoc(a + init, last); }
        RowsText(a + init) + RowLine(last);
        { RowsTextAppend(a, init); }
        RowsText(a) + RowsText(init) + RowLine(last);
        { RowsTextSnoc(init, last); }
        RowsText(a) + RowsText(b);
      }
    }
  }

  lemma WorkbookTextSnoc(sheets: seq<Sheet>, sheet: Sheet)
    ensures WorkbookText(sheets + [sheet]) == WorkbookText(sheets) + SheetText(sheet)
  {
    assert (sheets + [sheet])[..|sheets|] == sheets;
  }

  /** Workbook text distributes over concatenation: sheets keep their order. */
  lemma {:induction false} WorkbookTextAppend(a: seq<Sheet>, b: seq<Sheet>)
    ensures WorkbookText(a + b) == WorkbookText(a) + WorkbookText(b)
    decreases |b|
  {
    if b == [] {
      assert a + b == a;
    } else {
      var init, last := b[..|b| - 1], b[|b| - 1];
      assert b == init + [last];
      assert a + b == (a + init) + [last];
      calc {
        WorkbookText(a + b);
        WorkbookText((a + init) + [last]);
        { WorkbookTextSnoc(a + init, last); }
        WorkbookText(a + init) + SheetText(last);
        { WorkbookTextAppend(a, init); }
        WorkbookText(a) + WorkbookText(init) + SheetText(last);
        { WorkbookTextSnoc(init, last); }
        WorkbookText(a) + WorkbookText(b);
      }
    }
  }

  /** A falsy cell, `0` included, leaves an empty field between its tabs. */
  lemma FalsyCellsAreBlank(row: seq<Cell>, i: nat)
    requires i < |row| && row[i] == Falsy
    ensures CellTexts(row)[i] == ""
  {
  }

  /** Joining pieces that hold no `c` with a separator that holds none adds no `c`. */
  lemma {:induction false} JoinCount(parts: seq<string>, sep: string, c: char)
    requires forall k | 0 <= k < |parts| :: NoChar(parts[k], c)
    requires NoChar(sep, c)
    ensures CountChar(Join(parts, sep), c) == 0
    decreases |parts|
  {
    if |parts| == 1 {
      NoCharCount(parts[0], c);
    } else if |parts| > 1 {
      JoinCount(parts[1..], sep, c);
      NoCharCount(parts[0], c);
      NoCharCount(sep, c);
      CountCharAppend(parts[0], sep, c);
      CountCharAppend(parts[0] + sep, Join(parts[1..], sep), c);
    }
  }

  /** A row with `n > 0` cells, none holding a tab, has exactly `n - 1` tabs. */
  lemma {:induction false} RowTabs(row: seq<Cell>)
    requires |row| > 0
    requires forall i | 0 <= i < |row| :: NoChar(CellText(row[i]), '\t')
    ensures CountChar(RowLine(row), '\t') == |row| - 1
    decreases |row|
  {
    var texts := CellTexts(row);
    if |row| == 1 {
      NoCharCount(texts[0], '\t');
      CountCharAppend(texts[0], "\n", '\t');
    } else {
      RowTabs(row[1..]);
      assert CellTexts(row[1..]) == texts[1..];
      NoCharCount(texts[0], '\t');
      CountCharAppend(texts[0], "\t", '\t');
      CountCharAppend(texts[0] + "\t", Join(texts[1..], "\t"), '\t');
      CountCharAppend(Join(texts[1..], "\t"), "\n", '\t');
      CountCharAppend(Join(texts, "\t"), "\n", '\t');
    }
  }

  /** Cell texts and sheet names free of newlines: only the layout's own newlines remain. */
  predicate NoNewlines(sheets: seq<Sheet>)
  {
    forall s | 0 <= s < |sheets| ::
      NoChar(sheets[s].name, '\n') &&
      forall k | 0 <= k < |sheets[s].rows| :: forall i | 0 <= i < |sheets[s].rows[k]| ::
        NoChar(CellText(sheets[s].rows[k][i]), '\n')
  }

  /** The total number of rows of a workbook. */
  function RowCount(sheets: seq<Sheet>): nat
  {
    if sheets == [] then 0 else RowCount(sheets[..|sheets| - 1]) + |sheets[|sheets| - 1].rows|
  }

  lemma {:induction false} RowsNewlines(rows: seq<seq<Cell>>)
    requires forall k | 0 <= k < |rows| :: forall i | 0 <= i < |rows[k]| :: NoChar(CellText(rows[k][i]), '\n')
    ensures CountChar(RowsText(rows), '\n') == |rows|
    decreases |rows|
  {
    if rows != [] {
      var last := rows[|rows| - 1];
      RowsNewlines(rows[..|rows| - 1]);
      JoinCount(CellTexts(last), "\t", '\n');
      CountCharAppend(Join(CellTexts(last), "\t"), "\n", '\n');
      CountCharAppend(RowsText(rows[..|rows| - 1]), RowLine(last), '\n');
    }
  }

  lemma HeaderNewlines(name: string)
    requires NoChar(name, '\n')
    ensures CountChar(SheetHeader(name), '\n') == 2
  {
    NoCharCount(name, '\n');
    CountCharAppend("\n=== Sheet: ", name, '\n');
    CountCharAppend("\n=== Sheet: " + name, " ===\n", '\n');
  }

  /**
   * With no newline inside cells or sheet names, the workbook text has two
   * newlines per sheet (around its banner) and one per row.
   */
  lemma {:induction false} WorkbookNewlines(sheets: seq<Sheet>)
    requires NoNewlines(sheets)
    ensures CountChar(WorkbookText(sheets), '\n') == 2 * |sheets| + RowCount(sheets)
    decreases |sheets|
  {
    if sheets != [] {
      var last := sheets[|sheets| - 1];
      WorkbookNewlines(sheets[..|sheets| - 1]);
      RowsNewlines(last.rows);
      HeaderNewlines(last.name);
      CountCharAppend(SheetHeader(last.name), RowsText(last.rows), '\n');
      CountCharAppend(WorkbookText(sheets[..|sheets| - 1]), SheetText(last), '\n');
    }
  }

  // ---------------------------------------------------------------------------
  // Extraction dispatch
  // ---------------------------------------------------------------------------

  datatype Extractor = PdfExtractor | ExcelExtractor | WordExtractor

  /** The extractor for an extension, compared after lower-casing; `None` for every other extension. */
  function ExtractorFor(fileType: string): (r: Option<Extractor>)
    ensures r == Some(PdfExtractor) <==> ToLower(fileType) == ".pdf"
    ensures r == Some(ExcelExtractor) <==> ToLower(fileType) in {".xlsx", ".xls"}
    ensures r == Some(WordExtractor) <==> ToLower(fileType) in {".docx", ".doc"}
  {
    var t := ToLower(fileType);
    if t == ".pdf" then Some(PdfExtractor)
    else if t == ".xlsx" || t == ".xls" then Some(ExcelExtractor)
    else if t == ".docx" || t == ".doc" then Some(WordExtractor)
    else None
  }

  /** The extension's letter case does not matter. */
  lemma ExtractorIgnoresCase(fileType: string)
    ensures ExtractorFor(ToLower(fileType)) == ExtractorFor(fileType)
  {
    ToLowerIdempotent(fileType);
  }

  /** `extractText(filePath, fileType)`: the text of the file, or the message it throws. */
  function ExtractText(fileType: string, parsers: Parsers): (r: Result<string>)
    ensures ExtractorFor(fileType) == None ==> r == Err("Unsupported file type: " + fileType)
    ensures ExtractorFor(fileType) == Some(PdfExtractor) ==>
      r == (if parsers.pdf.Ok? then parsers.pdf else Err("Failed to extract PDF: " + parsers.pdf.message))
    ensures ExtractorFor(fileType) == Some(ExcelExtractor) ==>
      r == (if parsers.workbook.Ok? then Ok(WorkbookText(parsers.workbook.value))
            else Err("Failed to extract Excel: " + parsers.workbook.message))
    ensures ExtractorFor(fileType) == Some(WordExtractor) ==>
      r == (if parsers.word.Ok? then parsers.word else Err("Failed to extract Word document: " + parsers.word.message))
  {
    match ExtractorFor(fileType)
    case None => Err("Unsupported file type: " + fileType)
    case Some(PdfExtractor) =>
      if parsers.pdf.Ok? then Ok(parsers.pdf.value) else Err("Failed to extract PDF: " + parsers.pdf.message)
    case Some(ExcelExtractor) =>
      if parsers.workbook.Ok? then Ok(WorkbookText(parsers.workbook.value))
      else Err("Failed to extract Excel: " + parsers.workbook.message)
    case Some(WordExtractor) =>
      if parsers.word.Ok? then Ok(parsers.word.value) else Err("Failed to extract Word document: " + parsers.word.message)
  }

  /** Every failure of extraction names its cause: an unsupported type or the failing extractor. */
  lemma ExtractTextErrors(fileType: string, parsers: Parsers)
    requires ExtractText(fileType, parsers).Err?
    ensures var m := ExtractText(fileType, parsers).message;
      || StartsWith(m, "Unsupported file type: ")
      || StartsWith(m, "Failed to extract PDF: ")
      || StartsWith(m, "Failed to extract Excel: ")
      || StartsWith(m, "Failed to extract Word document: ")
  {
  }

  /** Upper-case extensions are dispatched like lower-case ones. */
  lemma UpperCaseExtensions()
    ensures ExtractorFor(".PDF") == Some(PdfExtractor)
    ensures ExtractorFor(".XLSX") == Some(ExcelExtractor)
    ensures ExtractorFor(".Doc") == Some(WordExtractor)
  {
    assert ToLower(".PDF") == ".pdf";
    assert ToLower(".XLSX") == ".xlsx";
    assert ToLower(".Doc") == ".doc";
  }

  // ---------------------------------------------------------------------------
  // Summary and metadata
  // ---------------------------------------------------------------------------

  /** The limit `getSummary` uses when the caller passes none. */
  const SummaryLength := 500

  /** `maxLength = 500`: an omitted argument takes the default. */
  function Limit(maxLength: Option<int>): int
  {
    if maxLength.None? then SummaryLength else maxLength.value
  }

  /** The number of characters `substring(0, n)` keeps at most: a negative end counts as 0. */
  function Clamp(n: int): nat
  {
    if n < 0 then 0 else n
  }

  /**
   * `getSummary(text, maxLength)`: the text cut to the limit, marked with `...`
   * when it is longer than the limit. The empty text gives the empty summary.
   */
  function GetSummary(text: string, maxLength: Option<int>): (r: string)
    ensures text == "" ==> r == ""
    ensures |text| <= Limit(maxLength) ==> r == text
    ensures text != "" && |text| > Limit(maxLength) ==>
      && |r| == Clamp(Limit(maxLength)) + 3
      && StartsWith(text, r[..Clamp(Limit(maxLength))])
      && r[Clamp(Limit(maxLength))..] == "..."
  {
    var n := Limit(maxLength);
    if text == "" then ""
    else text[..if |text| < Clamp(n) then |text| else Clamp(n)] + (if |text| > n then "..." else "")
  }

  /** The summary never exceeds the limit by more than the marker, and only a cut text ends in it. */
  lemma SummaryBounds(text: string, maxLength: Option<int>)
    ensures |GetSummary(text, maxLength)| <= Clamp(Limit(maxLength)) + 3
    ensures |GetSummary(text, maxLength)| <= |text| + 3
    ensures text != "" && |text| > Limit(maxLength) ==> |GetSummary(text, maxLength)| > Clamp(Limit(maxLength))
  {
  }

  /** Without a limit the summary is the first 500 characters, plus the marker when the text is longer. */
  lemma DefaultSummary(text: string)
    ensures |text| <= 500 ==> GetSummary(text, None) == text
    ensures |text| > 500 ==> GetSummary(text, None) == text[..500] + "..."
    ensures GetSummary(text, None) == GetSummary(text, Some(SummaryLength))
  {
  }

  /** A negative limit keeps no character of a non-empty text, so only the marker is left. */
  lemma NegativeLimitLeavesMarker(text: string, maxLength: int)
    requires text != "" && maxLength < 0
    ensures GetSummary(text, Some(maxLength)) == "..."
  {
  }

  /** The counts `getMetadata` reports. */
  datatype Metadata = Metadata(characterCount: nat, wordCount: nat, lineCount: nat, paragraphCount: nat)

  /** `getMetadata(text)`: each count is the number of pieces of a split, so never below one. */
  function GetMetadata(text: string): (m: Metadata)
    ensures m.characterCount == |text|
    ensures m.wordCount == RunStarts(text, false) + 1
    ensures m.lineCount == CountChar(text, '\n') + 1
    ensures m.paragraphCount == Occurrences(text, "\n\n") + 1
  {
    SplitOnSpacesLength(text);
    SplitLength(text, "\n");
    OccurrencesOfChar(text, '\n');
    SplitLength(text, "\n\n");
    Metadata(|text|, |SplitOnSpaces(text)|, |Split(text, "\n")|, |Split(text, "\n\n")|)
  }

  /** Every blank-line break takes two newlines, so there are never more paragraphs than lines. */
  lemma {:induction false} BlankLinesUseTwoNewlines(s: string)
    ensures 2 * Occurrences(s, "\n\n") <= CountChar(s, '\n')
    decreases |s|
  {
    if |s| < 2 {
    } else if s[..2] == "\n\n" {
      BlankLinesUseTwoNewlines(s[2..]);
      assert s[0] == '\n' && s[1] == '\n';
      assert s[1..][1..] == s[2..];
    } else {
      BlankLinesUseTwoNewlines(s[1..]);
    }
  }

  lemma ParagraphsAtMostLines(text: string)
    ensures GetMetadata(text).paragraphCount <= GetMetadata(text).lineCount
  {
    BlankLinesUseTwoNewlines(text);
  }

  /** The empty text still counts one word, one line and one paragraph. */
  lemma EmptyTextMetadata()
    ensures GetMetadata("") == Metadata(0, 1, 1, 1)
  {
  }
}
