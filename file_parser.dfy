/**
 * Brief extraction (src/utils/fileParser.ts). The third-party decoders are not modelled:
 * what they would hand back for a file (the CSV or first-sheet rows, the raw text,
 * the PDF pages' text items, the DOCX raw text, or a decoder failure) is part of the input.
 */
module FileParser {
  import opened Strings
  import opened Types

  /** A decoded spreadsheet cell; numbers are kept abstract, since only strings can become briefs. */
  datatype RowCell = StringCell(text: string) | NumberCell | BooleanCell(flag: bool) | NullCell | UndefinedCell

  /** A decoded row; a row shorter than one cell has a missing first cell. */
  type Row = seq<RowCell>

  /** The filter of `toBriefsFromRows`: the first cell is a string whose trim is not empty. */
  predicate HasTopic(row: Row) {
    |row| > 0 && row[0].StringCell? && Trim(row[0].text) != ""
  }

  /** The rows that survive the filter, in their original order. */
  function TopicRows(rows: seq<Row>): (kept: seq<Row>)
    ensures |kept| <= |rows|
    ensures forall i :: 0 <= i < |kept| ==> HasTopic(kept[i])
  {
    if rows == [] then []
    else (if HasTopic(rows[0]) then [rows[0]] else []) + TopicRows(rows[1..])
  }

  /** A row survives exactly when it is one of the input rows and has a topic. */
  lemma {:induction false} TopicRowsMembers(rows: seq<Row>, row: Row)
    ensures row in TopicRows(rows) <==> row in rows && HasTopic(row)
  {
    if rows != [] {
      TopicRowsMembers(rows[1..], row);
      assert rows == [rows[0]] + rows[1..];
    }
  }

  /** Filtering distributes over concatenation, so the relative order of surviving rows is kept. */
  lemma {:induction false} TopicRowsAppend(a: seq<Row>, b: seq<Row>)
    ensures TopicRows(a + b) == TopicRows(a) + TopicRows(b)
  {
    if a == [] {
      assert a + b == b;
    } else {
      assert (a + b)[0] == a[0];
      assert (a + b)[1..] == a[1..] + b;
      TopicRowsAppend(a[1..], b);
    }
  }

  /** The identifier `brief-${index}`. */
  function BriefId(index: nat): string {
    "brief-" + NatToString(index)
  }

  lemma BriefIdInjective(i: nat, j: nat)
    requires BriefId(i) == BriefId(j)
    ensures i == j
  {
    assert BriefId(i)[6..] == NatToString(i);
    assert BriefId(j)[6..] == NatToString(j);
    NatToStringInjective(i, j);
  }

  /** Keep the rows with a topic, then number the survivors `brief-0`, `brief-1`, ... */
  function ToBriefsFromRows(rows: seq<Row>): (briefs: seq<Brief>)
    ensures |briefs| == |TopicRows(rows)| <= |rows|
    ensures forall i :: 0 <= i < |briefs| ==>
      briefs[i].id == BriefId(i) && briefs[i].content == Trim(TopicRows(rows)[i][0].text)
    ensures forall i :: 0 <= i < |briefs| ==> briefs[i].content != "" && IsTrimmed(briefs[i].content)
  {
    var kept := TopicRows(rows);
    seq(|kept|, i requires 0 <= i < |kept| => Brief(BriefId(i), Trim(kept[i][0].text)))
  }

  /** The identifiers of the briefs extracted from rows are pairwise distinct. */
  lemma RowBriefIdsDistinct(rows: seq<Row>, i: nat, j: nat)
    requires i < j < |ToBriefsFromRows(rows)|
    ensures ToBriefsFromRows(rows)[i].id != ToBriefsFromRows(rows)[j].id
  {
    if ToBriefsFromRows(rows)[i].id == ToBriefsFromRows(rows)[j].id {
      BriefIdInjective(i, j);
    }
  }

  /** A single row is kept exactly when it has a topic, and then as it is. */
  lemma TopicRowsSingle(row: Row)
    ensures TopicRows([row]) == if HasTopic(row) then [row] else []
  {
    assert [row][1..] == [];
  }

  /** Two topics around a blank row: exactly two briefs, numbered after filtering. */
  lemma TwoTopicsAroundBlankRow(first: string, second: string)
    requires first != "" && IsTrimmed(first) && second != "" && IsTrimmed(second)
    ensures ToBriefsFromRows([[StringCell(first), StringCell("")], [StringCell(""), StringCell("")], [StringCell(second)]])
      == [Brief(BriefId(0), first), Brief(BriefId(1), second)]
  {
    var r0, r1, r2 := [StringCell(first), StringCell("")], [StringCell(""), StringCell("")], [StringCell(second)];
    TrimOfTrimmed(first);
    TrimOfTrimmed(second);
    TrimOfTrimmed("");
    assert HasTopic(r0) && !HasTopic(r1) && HasTopic(r2);
    TopicRowsSingle(r0);
    TopicRowsSingle(r1);
    TopicRowsSingle(r2);
    TopicRowsAppend([r0], [r1]);
    TopicRowsAppend([r0] + [r1], [r2]);
    assert [r0, r1, r2] == [r0] + [r1] + [r2];
    assert TopicRows([r0, r1, r2]) == [r0, r2];
  }

  /** The worked example: rows "Topic 1", a blank row and "Topic 2" give `brief-0` and `brief-1`. */
  lemma RowsExample()
    ensures ToBriefsFromRows([[StringCell("Topic 1"), StringCell("")], [StringCell(""), StringCell("")], [StringCell("Topic 2")]])
      == [Brief("brief-0", "Topic 1"), Brief("brief-1", "Topic 2")]
  {
    TwoTopicsAroundBlankRow("Topic 1", "Topic 2");
    assert BriefId(0) == "brief-0" && BriefId(1) == "brief-1";
  }

  /** A whole text becomes at most one brief, `brief-0`, holding the trimmed text. */
  function ToSingleBrief(text: string): (briefs: seq<Brief>)
    ensures briefs == [] <==> AllWhitespace(text)
    ensures briefs != [] ==> briefs == [Brief("brief-0", Trim(text))]
    ensures forall i :: 0 <= i < |briefs| ==> briefs[i].content != "" && IsTrimmed(briefs[i].content)
  {
    TrimEmptyIff(text);
    var content := Trim(text);
    if content == "" then [] else [Brief("brief-0", content)]
  }

  /** A PDF text item; marked-content items carry no `str` and count as the empty string. */
  datatype TextItem = TextString(str: string) | MarkedContent

  type Page = seq<TextItem>

  function ItemText(item: TextItem): string {
    if item.TextString? then item.str else ""
  }

  /** A page's items joined with single spaces, then trimmed. */
  function PageText(page: Page): (text: string)
    ensures IsTrimmed(text)
  {
    Trim(Join(seq(|page|, i requires 0 <= i < |page| => ItemText(page[i])), " "))
  }

  /** The text of every page, page by page. */
  function PageTexts(pages: seq<Page>): (texts: seq<string>)
    ensures |texts| == |pages|
    ensures forall i :: 0 <= i < |pages| ==> texts[i] == PageText(pages[i]) && IsTrimmed(texts[i])
  {
    seq(|pages|, i requires 0 <= i < |pages| => PageText(pages[i]))
  }

  /** The non-empty texts, in their original order. */
  function NonEmptyTexts(texts: seq<string>): (kept: seq<string>)
    ensures |kept| <= |texts|
    ensures forall t :: t in kept <==> t in texts && t != ""
  {
    if texts == [] then []
    else
      var last := texts[|texts| - 1];
      NonEmptyTexts(texts[..|texts| - 1]) + (if last != "" then [last] else [])
  }

  /** The filter distributes over concatenation, so kept texts stay in their original order. */
  lemma {:induction false} NonEmptyTextsAppend(a: seq<string>, b: seq<string>)
    ensures NonEmptyTexts(a + b) == NonEmptyTexts(a) + NonEmptyTexts(b)
    decreases |b|
  {
    if b == [] {
      assert a + b == a;
    } else {
      var init := b[..|b| - 1];
      assert (a + b)[..|a + b| - 1] == a + init;
      assert (a + b)[|a + b| - 1] == b[|b| - 1];
      NonEmptyTextsAppend(a, init);
    }
  }

  /** No text survives exactly when every text is empty. */
  lemma {:induction false} NonEmptyTextsEmptyIff(texts: seq<string>)
    ensures NonEmptyTexts(texts) == [] <==> forall i :: 0 <= i < |texts| ==> texts[i] == ""
  {
    if texts != [] {
      var init := texts[..|texts| - 1];
      NonEmptyTextsEmptyIff(init);
      assert forall i :: 0 <= i < |init| ==> init[i] == texts[i];
    }
  }

  /** The texts of the non-blank pages, in page order. */
  function NonBlankPages(pages: seq<Page>): (texts: seq<string>)
    ensures forall i :: 0 <= i < |texts| ==> texts[i] != "" && IsTrimmed(texts[i])
  {
    var kept := NonEmptyTexts(PageTexts(pages));
    assert forall i :: 0 <= i < |kept| ==> kept[i] in kept;
    kept
  }

  /** The loop of `parsePdf`: visit pages 1..numPages and push each non-blank page text. */
  method CollectPageTexts(pages: seq<Page>) returns (texts: seq<string>)
    ensures texts == NonBlankPages(pages)
  {
    ghost var all := PageTexts(pages);
    texts := [];
    var pageNumber := 1;
    while pageNumber <= |pages|
      invariant 1 <= pageNumber <= |pages| + 1
      invariant texts == NonEmptyTexts(all[..pageNumber - 1])
    {
      var pageText := PageText(pages[pageNumber - 1]);
      assert all[..pageNumber][..pageNumber - 1] == all[..pageNumber - 1];
      assert all[..pageNumber][pageNumber - 1] == pageText;
      if pageText != "" {
        texts := texts + [pageText];
      }
      pageNumber := pageNumber + 1;
    }
    assert all[..|pages|] == all;
  }

  /** The blank-line separator between PDF pages. */
  const PageSeparator: string := "\n\n"

  /**
   * `parsePdf` on decoded pages: the non-blank pages joined by a blank line form one brief,
   * and the final trim changes nothing because each page text is already trimmed.
   */
  method ParsePdf(pages: seq<Page>) returns (briefs: seq<Brief>)
    ensures briefs == ToSingleBrief(Join(NonBlankPages(pages), PageSeparator))
    ensures briefs == [] <==> forall i :: 0 <= i < |pages| ==> PageText(pages[i]) == ""
    ensures briefs != [] ==> briefs == [Brief("brief-0", Join(NonBlankPages(pages), PageSeparator))]
  {
    var texts := CollectPageTexts(pages);
    NonEmptyTextsEmptyIff(PageTexts(pages));
    var joined := Join(texts, PageSeparator);
    JoinTrimmed(texts, PageSeparator);
    TrimOfTrimmed(joined);
    TrimEmptyIff(joined);
    briefs := ToSingleBrief(joined);
  }

  /** The text after the last '.', or the whole name when it has no '.'. */
  function AfterLastDot(name: string): (ext: string)
    ensures '.' !in ext
    ensures |ext| <= |name|
  {
    if name == [] then []
    else if name[|name| - 1] == '.' then []
    else AfterLastDot(name[..|name| - 1]) + [name[|name| - 1]]
  }

  /** The extension is a suffix of the name, and it is either the whole name or preceded by a '.'. */
  lemma {:induction false} AfterLastDotSuffix(name: string)
    ensures var ext := AfterLastDot(name);
      && ext == name[|name| - |ext|..]
      && (|ext| < |name| ==> name[|name| - |ext| - 1] == '.')
  {
    if name != [] && name[|name| - 1] != '.' {
      var init := name[..|name| - 1];
      AfterLastDotSuffix(init);
      var e := AfterLastDot(init);
      assert init[|init| - |e|..] + [name[|name| - 1]] == name[|name| - |e| - 1..];
    }
  }

  /** Whatever precedes the last dot, the extension is the dot-free text after it. */
  lemma {:induction false} AfterLastDotOf(stem: string, ext: string)
    requires '.' !in ext
    ensures AfterLastDot(stem + "." + ext) == ext
  {
    var name := stem + "." + ext;
    if ext != [] {
      var init := ext[..|ext| - 1];
      assert name[..|name| - 1] == stem + "." + init;
      assert name[|name| - 1] == ext[|ext| - 1];
      AfterLastDotOf(stem, init);
      assert init + [ext[|ext| - 1]] == ext;
    }
  }

  /** A name without a dot is its own extension. */
  lemma {:induction false} AfterLastDotNoDot(name: string)
    requires '.' !in name
    ensures AfterLastDot(name) == name
  {
    if name != [] {
      var init := name[..|name| - 1];
      AfterLastDotNoDot(init);
      assert init + [name[|name| - 1]] == name;
    }
  }

  /** `file.name.split('.').pop()?.toLowerCase()`; `split` always yields a last piece. */
  function FileExtension(name: string): (ext: string)
    ensures '.' !in ext
    ensures |ext| <= |name|
    ensures forall i :: 0 <= i < |ext| ==> !('A' <= ext[i] <= 'Z')
  {
    ToLower(AfterLastDot(name))
  }

  /** The extension of `stem.e` is `e` lower-cased, whatever precedes the last dot. */
  lemma FileExtensionOf(stem: string, e: string)
    requires '.' !in e
    ensures FileExtension(stem + "." + e) == ToLower(e)
  {
    AfterLastDotOf(stem, e);
  }

  /** A name without a dot is lower-cased whole. */
  lemma FileExtensionNoDot(name: string)
    requires '.' !in name
    ensures FileExtension(name) == ToLower(name)
  {
    AfterLastDotNoDot(name);
  }

  const SupportedExtensions: seq<string> := ["csv", "xlsx", "txt", "md", "pdf", "docx"]

  const NoFileMessage: string := "No file provided"
  const InvalidFormatMessage: string := "Invalid file format. Please upload CSV, XLSX, TXT, MD, PDF, or DOCX."
  const UnsupportedFormatMessage: string := "Unsupported file format"

  /**
   * What the external decoders yield for one file, one entry per format:
   * PapaParse rows, the first sheet's rows, `file.text()`, the PDF pages, mammoth's raw text.
   */
  datatype Decoded = Decoded(
    csvRows: Result<seq<Row>>,
    sheetRows: Result<seq<Row>>,
    text: Result<string>,
    pdfPages: Result<seq<Page>>,
    docxText: Result<string>)

  datatype UploadedFile = UploadedFile(name: string, decoded: Decoded)

  function RowsToBriefs(rows: Result<seq<Row>>): Result<seq<Brief>> {
    match rows
    case Ok(r) => Ok(ToBriefsFromRows(r))
    case Err(m) => Err(m)
  }

  function TextToBriefs(text: Result<string>): Result<seq<Brief>> {
    match text
    case Ok(t) => Ok(ToSingleBrief(t))
    case Err(m) => Err(m)
  }

  function PagesToBriefs(pages: Result<seq<Page>>): Result<seq<Brief>> {
    match pages
    case Ok(p) => Ok(ToSingleBrief(Join(NonBlankPages(p), PageSeparator)))
    case Err(m) => Err(m)
  }

  /** What `parseFile` yields for a supported extension: the decoder for that format, then its brief rule. */
  function Dispatch(ext: string, d: Decoded): (r: Result<seq<Brief>>)
    ensures r.Ok? ==> WellFormedBriefs(r.value)
  {
    if ext == "csv" then RowsToBriefs(d.csvRows)
    else if ext == "xlsx" then RowsToBriefs(d.sheetRows)
    else if ext == "txt" || ext == "md" then TextToBriefs(d.text)
    else if ext == "pdf" then PagesToBriefs(d.pdfPages)
    else TextToBriefs(d.docxText)
  }

  /** Every brief the parser hands back is non-empty and trimmed. */
  predicate WellFormedBriefs(briefs: seq<Brief>) {
    forall i :: 0 <= i < |briefs| ==> briefs[i].content != "" && IsTrimmed(briefs[i].content)
  }

  /** `parseFile`: reject a missing file, then an extension outside the whitelist, then dispatch. */
  method ParseFile(file: Option<UploadedFile>) returns (r: Result<seq<Brief>>)
    ensures file.None? ==> r == Err(NoFileMessage)
    ensures file.Some? && FileExtension(file.value.name) !in SupportedExtensions ==> r == Err(InvalidFormatMessage)
    ensures file.Some? && FileExtension(file.value.name) in SupportedExtensions ==>
      r == Dispatch(FileExtension(file.value.name), file.value.decoded)
  {
    if file.None? {
      return Err(NoFileMessage);
    }
    var extension := FileExtension(file.value.name);
    var decoded := file.value.decoded;
    if extension !in SupportedExtensions {
      return Err(InvalidFormatMessage);
    }
    if extension == "csv" {
      return RowsToBriefs(decoded.csvRows);
    }
    if extension == "xlsx" {
      return RowsToBriefs(decoded.sheetRows);
    }
    if extension == "txt" || extension == "md" {
      return TextToBriefs(decoded.text);
    }
    if extension == "pdf" {
      match decoded.pdfPages
      case Err(m) => return Err(m);
      case Ok(pages) =>
        var briefs := ParsePdf(pages);
        return Ok(briefs);
    }
    if extension == "docx" {
      return TextToBriefs(decoded.docxText);
    }
    assert false;
    return Err(UnsupportedFormatMessage);
  }

  /** A name ending in an upper-case `.CSV` goes to the row rule; a `.gif` is rejected. */
  lemma ExtensionExamples(stem: string)
    ensures FileExtension(stem + ".CSV") == "csv"
    ensures FileExtension(stem + ".gif") == "gif" && "gif" !in SupportedExtensions
  {
    AfterLastDotOf(stem, "CSV");
    AfterLastDotOf(stem, "gif");
    assert stem + ".CSV" == stem + "." + "CSV";
    assert stem + ".gif" == stem + "." + "gif";
    assert ToLower("CSV") == "csv";
    assert ToLower("gif") == "gif";
  }
}
