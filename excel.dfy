/** The Excel report (`_export_to_excel`): a two-column sheet written cell by
    cell while a row counter advances. The sheet is a sequence of rows; a row
    never written stays empty, which is how the counter's skipped rows become
    the spacer rows between blocks. */
module Excel {
  import opened Common
  import opened Checklist
  import opened Record

  /** The fonts the sheet uses, by role (`H_FONT`, `MH_FONT` with the grey
      fill, `S_FONT`, `Q_FONT`, `A_FONT`, `ML_FONT`, `MV_FONT`, `LINK_FONT`). */
  datatype Font = TitleFont | BlockFont | SectionFont | QuestionFont | AnswerFont
                | LabelFont | ValueFont | LinkFont

  datatype Cell = Cell(value: string, font: Font, hyperlink: Option<string>)

  /** How column A of a row is merged: not at all, with column B, or with the
      `extra` rows below it. */
  datatype Span = Single | AcrossAB | DownA(extra: nat)

  datatype Row = Row(a: Option<Cell>, b: Option<Cell>, span: Span)

  datatype Column = A | B

  datatype Workbook = Workbook(title: string, rows: seq<Row>)

  const EmptyRow: Row := Row(None, None, Single)

  /** The sheet name: v7.1's literal is the two adjacent strings
      "Safety Checklist RePYTHON MAIN.PY" "port", which Python joins. */
  function SheetTitle(v: Version): string {
    match v
    case V7 => "Safety Checklist RePYTHON MAIN.PY" + "port"
    case V8 => "Safety Checklist Report"
  }

  // ---------------------------------------------------------------------------
  // The worksheet operations the exporter uses
  // ---------------------------------------------------------------------------

  function SetCell(row: Row, col: Column, c: Cell): Row {
    match col
    case A => row.(a := Some(c))
    case B => row.(b := Some(c))
  }

  /** `sheet` extended with empty rows to at least `n` rows. */
  function Pad(sheet: seq<Row>, n: nat): (r: seq<Row>)
    ensures |r| == if n <= |sheet| then |sheet| else n
    ensures r[..|sheet|] == sheet
    ensures forall i :: |sheet| <= i < |r| ==> r[i] == EmptyRow
    decreases n - |sheet|
  {
    if n <= |sheet| then sheet else Pad(sheet + [EmptyRow], n)
  }

  /** `ws.cell(row=r, column=col, value=...)` with its font and hyperlink:
      row `r` (counted from 1) gets cell `c` in column `col`; the sheet grows
      with empty rows when `r` lies beyond its end; every other cell stays. */
  function Put(sheet: seq<Row>, r: nat, col: Column, c: Cell): (s: seq<Row>)
    requires 1 <= r
    ensures |s| == if r <= |sheet| then |sheet| else r
    ensures s[r - 1] == SetCell(if r <= |sheet| then sheet[r - 1] else EmptyRow, col, c)
    ensures forall i :: 0 <= i < |s| && i != r - 1 ==> s[i] == if i < |sheet| then sheet[i] else EmptyRow
  {
    var p := Pad(sheet, r);
    assert forall i :: 0 <= i < |sheet| ==> p[i] == p[..|sheet|][i];
    p[r - 1 := SetCell(p[r - 1], col, c)]
  }

  /** `ws.merge_cells(...)` starting at row `r`. */
  function Merge(sheet: seq<Row>, r: nat, span: Span): (s: seq<Row>)
    requires 1 <= r <= |sheet|
    ensures |s| == |sheet| && s[r - 1] == sheet[r - 1].(span := span)
    ensures forall i :: 0 <= i < |s| && i != r - 1 ==> s[i] == sheet[i]
  {
    sheet[r - 1 := sheet[r - 1].(span := span)]
  }

  /** Writing just past the end appends one row. */
  lemma PutNext(sheet: seq<Row>, r: nat, col: Column, c: Cell)
    requires r == |sheet| + 1
    ensures Put(sheet, r, col, c) == sheet + [SetCell(EmptyRow, col, c)]
  {
    var s := Put(sheet, r, col, c);
    assert forall i :: 0 <= i < |s| ==> s[i] == (sheet + [SetCell(EmptyRow, col, c)])[i];
  }

  /** Writing two rows past the end leaves an empty spacer row before it. */
  lemma PutAfterGap(sheet: seq<Row>, r: nat, col: Column, c: Cell)
    requires r == |sheet| + 2
    ensures Put(sheet, r, col, c) == sheet + [EmptyRow, SetCell(EmptyRow, col, c)]
  {
    var s := Put(sheet, r, col, c);
    assert forall i :: 0 <= i < |s| ==> s[i] == (sheet + [EmptyRow, SetCell(EmptyRow, col, c)])[i];
  }

  /** Writing into the last row changes only that row. */
  lemma PutLast(sheet: seq<Row>, r: nat, col: Column, c: Cell)
    requires 1 <= r == |sheet|
    ensures Put(sheet, r, col, c) == sheet[..r - 1] + [SetCell(sheet[r - 1], col, c)]
  {
    var s := Put(sheet, r, col, c);
    assert forall i :: 0 <= i < |s| ==> s[i] == (sheet[..r - 1] + [SetCell(sheet[r - 1], col, c)])[i];
  }

  // ---------------------------------------------------------------------------
  // The rows of the report
  // ---------------------------------------------------------------------------

  function Plain(s: string, f: Font): Cell {
    Cell(s, f, None)
  }

  /** A URL cell: blue link font, and a hyperlink exactly when the URL starts
      with "http". */
  function LinkCell(url: string): (c: Cell)
    ensures c.value == url && c.font == LinkFont
    ensures c.hyperlink.Some? <==> StartsWith(url, "http")
    ensures c.hyperlink.Some? ==> c.hyperlink.value == url
  {
    Cell(url, LinkFont, if url != "" && StartsWith(url, "http") then Some(url) else None)
  }

  /** A block heading: large font, grey fill, merged across both columns. */
  function Heading(title: string): Row {
    Row(Some(Plain(title, BlockFont)), None, AcrossAB)
  }

  /** `v if v else placeholder` */
  function OrPlaceholder(v: string, placeholder: string): string {
    if v != "" then v else placeholder
  }

  /** The answer column of a question: the stored answer, or "[N/A]" when the
      question has no entry or an empty one. */
  function AnswerText(answers: map<string, string>, question: string): (r: string)
    ensures r != ""
    ensures question in answers && answers[question] != "" ==> r == answers[question]
    ensures question !in answers || answers[question] == "" ==> r == "[N/A]"
  {
    OrPlaceholder(GetOr(answers, question, "[N/A]"), "[N/A]")
  }

  function QuestionRow(q: Question, answers: map<string, string>): Row {
    Row(Some(Plain(DisplayText(q), QuestionFont)), Some(Plain(AnswerText(answers, q.text), AnswerFont)), Single)
  }

  function SectionTitleRow(s: Section): Row {
    Row(Some(Plain(s.title, SectionFont)), None, AcrossAB)
  }

  /** The rows that each hold one element of a list. */
  datatype Form =
    | MetadataForm(meta: map<string, string>)     // "Key:" | value
    | DetailForm(details: map<string, string>)    // "Key:" | value or "[N/A]"
    | LinkInB                                     // link in column B
    | LinkAcross                                  // link merged across A and B

  function RowOf(f: Form, x: string): Row {
    match f
    case MetadataForm(meta) =>
      Row(Some(Plain(x + ":", LabelFont)), Some(Plain(GetOr(meta, x, ""), ValueFont)), Single)
    case DetailForm(details) =>
      Row(Some(Plain(ReplaceChar(x, '_', ' ') + ":", LabelFont)),
          Some(Plain(OrPlaceholder(GetOr(details, x, ""), "[N/A]"), AnswerFont)), Single)
    case LinkInB => Row(None, Some(LinkCell(x)), Single)
    case LinkAcross => Row(Some(LinkCell(x)), None, AcrossAB)
  }

  /** One row per element, in order. */
  function RowsOf(f: Form, xs: seq<string>): (r: seq<Row>)
    ensures |r| == |xs|
    ensures forall i :: 0 <= i < |xs| ==> r[i] == RowOf(f, xs[i])
  {
    if xs == [] then [] else RowsOf(f, xs[..|xs| - 1]) + [RowOf(f, xs[|xs| - 1])]
  }

  /** Concatenation regrouped, as the writers below need it. */
  lemma Regroup(a: seq<Row>, b: seq<Row>, c: seq<Row>, d: seq<Row>)
    ensures a + b + c + d == a + (b + c + d)
  {
  }

  lemma Regroup3(a: seq<Row>, b: seq<Row>, c: seq<Row>)
    ensures a + b + c == a + (b + c)
  {
  }

  /** The loop step: one more element adds its row at the end. */
  lemma RowsOfStep(f: Form, xs: seq<string>, i: nat)
    requires i < |xs|
    ensures RowsOf(f, xs[..i + 1]) == RowsOf(f, xs[..i]) + [RowOf(f, xs[i])]
  {
    assert xs[..i + 1][..i] == xs[..i];
  }

  /** One row per question, in order. */
  function QuestionRows(qs: seq<Question>, answers: map<string, string>): (r: seq<Row>)
    ensures |r| == |qs|
    ensures forall i :: 0 <= i < |qs| ==> r[i] == QuestionRow(qs[i], answers)
  {
    if qs == [] then [] else QuestionRows(qs[..|qs| - 1], answers) + [QuestionRow(qs[|qs| - 1], answers)]
  }

  /** Per section: its title row, then its question rows. */
  function SectionsRows(ss: seq<Section>, answers: map<string, string>): seq<Row> {
    if ss == [] then []
    else
      var last := ss[|ss| - 1];
      SectionsRows(ss[..|ss| - 1], answers) + [SectionTitleRow(last)] + QuestionRows(last.questions, answers)
  }

  lemma SectionsRowsStep(ss: seq<Section>, k: nat, answers: map<string, string>)
    requires k < |ss|
    ensures SectionsRows(ss[..k + 1], answers)
      == SectionsRows(ss[..k], answers) + [SectionTitleRow(ss[k])] + QuestionRows(ss[k].questions, answers)
  {
    assert ss[..k + 1][..k] == ss[..k];
  }

  function EvidenceLabel(): Cell {
    Plain("Near Miss Evidence Links:", LabelFont)
  }

  /** The merge of the evidence label over the `n` link rows: v7.1 always
      merges (a one-cell merge for a single link); v8.3 only for two or more. */
  function LabelSpan(v: Version, n: nat): Span
    requires n >= 1
  {
    if v == V7 || n > 1 then DownA(n - 1) else Single
  }

  /** The evidence rows of a recorded near miss: the label row carries the
      first link (or "[None]"), each further link gets its own row. */
  function EvidenceRows(v: Version, atts: seq<string>): seq<Row> {
    if atts == [] then [Row(Some(EvidenceLabel()), Some(Plain("[None]", LinkFont)), Single)]
    else [Row(Some(EvidenceLabel()), Some(LinkCell(atts[0])), LabelSpan(v, |atts|))] + RowsOf(LinkInB, atts[1..])
  }

  const TitleText: string := "Warehouse Safety Compliance Report"

  function TitleRows(): seq<Row> {
    [Row(Some(Plain(TitleText, TitleFont)), None, AcrossAB)]
  }

  /** A block: a spacer row, the heading, then the block's rows. */
  function Block(title: string, body: seq<Row>): seq<Row> {
    [EmptyRow, Heading(title)] + body
  }

  function MetadataBody(meta: map<string, string>): seq<Row> {
    RowsOf(MetadataForm(meta), MetadataFields)
  }

  /** v8.3 adds a "Question" / "Answer" column-header row. */
  function ChecklistBody(v: Version, answers: map<string, string>): seq<Row> {
    (if v == V8 then [Row(Some(Plain("Question", QuestionFont)), Some(Plain("Answer", AnswerFont)), Single)] else [])
    + SectionsRows(Structure, answers)
  }

  function NearMissBody(v: Version, nm: NearMissData): seq<Row> {
    if AnyDetail(nm.details) then RowsOf(DetailForm(nm.details), NearMissFields) + EvidenceRows(v, nm.attachments)
    else [Row(Some(Plain("[No Near Miss Recorded]", AnswerFont)), None, AcrossAB)]
  }

  function ActionBody(ap: string): seq<Row> {
    [Row(Some(Plain(OrPlaceholder(ap, "[None]"), AnswerFont)), None, AcrossAB)]
  }

  function LinksBody(urls: seq<string>): seq<Row> {
    if urls == [] then [Row(Some(Plain("[None]", LinkFont)), None, AcrossAB)] else RowsOf(LinkAcross, urls)
  }

  /** The whole sheet, block by block. */
  function Layout(v: Version, d: ProjectData): seq<Row> {
    TitleRows()
    + Block("Report Information", MetadataBody(d.metadata))
    + Block("Checklist Items", ChecklistBody(v, d.checklist))
    + Block("Near Miss Report", NearMissBody(v, d.nearMiss))
    + Block("Action Points / Recommendations", ActionBody(d.actionPoints))
    + Block(LinksTitle(v), LinksBody(d.generalAttachments))
  }

  // ---------------------------------------------------------------------------
  // What the layout promises
  // ---------------------------------------------------------------------------

  /** Each section takes its title row plus one row per question. */
  lemma {:induction false} SectionsRowsCount(ss: seq<Section>, answers: map<string, string>)
    ensures |SectionsRows(ss, answers)| == |ss| + |Flatten(ss)|
  {
    if ss != [] {
      SectionsRowsCount(ss[..|ss| - 1], answers);
    }
  }

  /** The rows of the first `m` sections come first. */
  lemma {:induction false} SectionsRowsPrefix(ss: seq<Section>, m: nat, answers: map<string, string>)
    requires m <= |ss|
    ensures SectionsRows(ss[..m], answers) <= SectionsRows(ss, answers)
  {
    if m < |ss| {
      var init := ss[..|ss| - 1];
      assert init[..m] == ss[..m];
      SectionsRowsPrefix(init, m, answers);
    } else {
      assert ss[..m] == ss;
    }
  }

  /** Section `k` starts at the row after the rows of the sections before it:
      its title row, then question `j` on the `j`-th row below the title. */
  lemma QuestionRowAt(ss: seq<Section>, answers: map<string, string>, k: nat, j: nat)
    requires k < |ss| && j < |ss[k].questions|
    ensures var off := |SectionsRows(ss[..k], answers)|;
      && off + 1 + j < |SectionsRows(ss, answers)|
      && SectionsRows(ss, answers)[off] == SectionTitleRow(ss[k])
      && SectionsRows(ss, answers)[off + 1 + j] == QuestionRow(ss[k].questions[j], answers)
  {
    SectionsRowsPrefix(ss, k + 1, answers);
    SectionsRowsStep(ss, k, answers);
    PrefixAt(SectionsRows(ss[..k], answers), SectionTitleRow(ss[k]), QuestionRows(ss[k].questions, answers),
      SectionsRows(ss, answers), j);
  }

  lemma PrefixAt(before: seq<Row>, t: Row, qr: seq<Row>, all: seq<Row>, j: nat)
    requires before + [t] + qr <= all && j < |qr|
    ensures |before| + 1 + j < |all|
    ensures all[|before|] == t && all[|before| + 1 + j] == qr[j]
  {
    var p := before + [t] + qr;
    assert all[|before|] == p[|before|];
    assert all[|before| + 1 + j] == p[|before| + 1 + j];
  }

  /** The checklist block has one row per section title and one per question
      (thirty in all), plus v8.3's column-header row. */
  lemma ChecklistRowCount(v: Version, answers: map<string, string>)
    ensures |ChecklistBody(v, answers)| == if v == V8 then 31 else 30
  {
    StructureQuestions();
    SectionsRowsCount(Structure, answers);
  }

  /** Every question row shows the question's display label in column A and,
      in column B, its stored answer or "[N/A]" when that is missing or empty. */
  lemma QuestionRowContents(q: Question, answers: map<string, string>)
    requires IsQuestion(q.text)
    ensures var r := QuestionRow(q, answers);
      && r.a.Some? && StartsWith(r.a.value.value, q.text)
      && (EndsWith(r.a.value.value, " *") <==> q.mandatory)
      && r.b.Some? && r.b.value.value != ""
      && (q.text in answers && answers[q.text] != "" ==> r.b.value.value == answers[q.text])
      && (q.text !in answers || answers[q.text] == "" ==> r.b.value.value == "[N/A]")
  {
    MandatoryMarker(q);
  }

  /** Without any near-miss detail the block body is the single placeholder row. */
  lemma NoNearMissRow(v: Version, nm: NearMissData)
    requires forall k :: k in nm.details ==> nm.details[k] == ""
    ensures NearMissBody(v, nm) == [Row(Some(Plain("[No Near Miss Recorded]", AnswerFont)), None, AcrossAB)]
  {
  }

  /** With a near-miss detail: five "Field:" rows (the field names contain no
      underscore, so the label is the field name itself) showing the value or
      "[N/A]", then the evidence label row, then one row per further link.
      Link `i` sits in column B of row `5 + i`; with no link the label row
      shows "[None]". */
  lemma NearMissRows(v: Version, nm: NearMissData)
    requires AnyDetail(nm.details)
    ensures var body := NearMissBody(v, nm);
      && |body| == 5 + (if nm.attachments == [] then 1 else |nm.attachments|)
      && (forall i :: 0 <= i < 5 ==>
            body[i].a == Some(Plain(NearMissFields[i] + ":", LabelFont))
            && body[i].b == Some(Plain(OrPlaceholder(GetOr(nm.details, NearMissFields[i], ""), "[N/A]"), AnswerFont)))
      && body[5].a == Some(EvidenceLabel())
      && (nm.attachments == [] ==> body[5].b == Some(Plain("[None]", LinkFont)) && body[5].span == Single)
      && (forall i :: 0 <= i < |nm.attachments| ==> body[5 + i].b == Some(LinkCell(nm.attachments[i])))
  {
    DetailLabels();
  }

  /** No near-miss field name contains '_', so the exported labels are the
      field names themselves. */
  lemma DetailLabels()
    ensures forall i :: 0 <= i < |NearMissFields| ==> ReplaceChar(NearMissFields[i], '_', ' ') == NearMissFields[i]
  {
    forall i | 0 <= i < |NearMissFields|
      ensures ReplaceChar(NearMissFields[i], '_', ' ') == NearMissFields[i]
    {
      ReplaceCharRemoves(NearMissFields[i], '_', ' ');
    }
  }

  /** The version difference in the evidence label: v7.1 merges it over the
      link rows even for a single link (a one-cell merge); v8.3 merges only
      over two or more links. */
  lemma EvidenceLabelMerge(v: Version, nm: NearMissData)
    requires AnyDetail(nm.details) && nm.attachments != []
    ensures var n := |nm.attachments|;
      NearMissBody(v, nm)[5].span == (if v == V8 && n == 1 then Single else DownA(n - 1))
  {
  }

  /** The last block: one merged row per general link, or one "[None]" row. */
  lemma LinksRows(urls: seq<string>)
    ensures |LinksBody(urls)| == if urls == [] then 1 else |urls|
    ensures forall i :: 0 <= i < |urls| ==>
      LinksBody(urls)[i] == Row(Some(LinkCell(urls[i])), None, AcrossAB)
  {
  }

  // ---------------------------------------------------------------------------
  // The exporter, written as the source writes the sheet
  // ---------------------------------------------------------------------------

  /** `_export_to_excel`: the workbook the exporter saves (saving itself is
      I/O and lies outside the model). The metadata and near-miss rows follow
      the record's field order, which is the order of the dictionaries that
      `get_all_data` builds, so the document must be a well-formed snapshot. */
  method ExportToExcel(v: Version, d: ProjectData) returns (wb: Workbook)
    requires d.metadata.Keys == MetadataKeys
    ensures wb == Workbook(SheetTitle(v), Layout(v, d))
  {
    var sheet: seq<Row> := [];
    var row := 1;
    PutNext(sheet, row, A, Plain(TitleText, TitleFont));
    sheet := Put(sheet, row, A, Plain(TitleText, TitleFont));
    sheet := Merge(sheet, row, AcrossAB);
    row := row + 2;
    assert sheet == TitleRows();
    sheet, row := WriteMetadataBlock(sheet, row, d.metadata);
    sheet, row := WriteChecklistBlock(v, sheet, row + 1, d.checklist);
    sheet, row := WriteNearMissBlock(v, sheet, row + 1, d.nearMiss);
    sheet, row := WriteActionBlock(sheet, row + 1, d.actionPoints);
    sheet, row := WriteLinksBlock(v, sheet, row + 1, d.generalAttachments);
    wb := Workbook(SheetTitle(v), sheet);
  }

  method WriteMetadataBlock(sheet: seq<Row>, row: nat, meta: map<string, string>) returns (sheet': seq<Row>, row': nat)
    requires row == |sheet| + 2
    requires meta.Keys == MetadataKeys
    ensures sheet' == sheet + Block("Report Information", MetadataBody(meta))
    ensures row' == |sheet'| + 1
  {
    sheet', row' := WriteHeading(sheet, row, "Report Information");
    assert forall i :: 0 <= i < |MetadataFields| ==> MetadataFields[i] in MetadataKeys;
    sheet', row' := WriteMetadata(sheet', row', MetadataFields, meta);
    Regroup3(sheet, [EmptyRow, Heading("Report Information")], MetadataBody(meta));
  }

  method WriteChecklistBlock(v: Version, sheet: seq<Row>, row: nat, answers: map<string, string>)
    returns (sheet': seq<Row>, row': nat)
    requires row == |sheet| + 2
    ensures sheet' == sheet + Block("Checklist Items", ChecklistBody(v, answers))
    ensures row' == |sheet'| + 1
  {
    sheet', row' := WriteHeading(sheet, row, "Checklist Items");
    sheet', row' := WriteChecklistBody(v, sheet', row', answers);
    Regroup3(sheet, [EmptyRow, Heading("Checklist Items")], ChecklistBody(v, answers));
  }

  method WriteNearMissBlock(v: Version, sheet: seq<Row>, row: nat, nm: NearMissData) returns (sheet': seq<Row>, row': nat)
    requires row == |sheet| + 2
    ensures sheet' == sheet + Block("Near Miss Report", NearMissBody(v, nm))
    ensures row' == |sheet'| + 1
  {
    sheet', row' := WriteHeading(sheet, row, "Near Miss Report");
    sheet', row' := WriteNearMiss(v, sheet', row', nm);
    Regroup3(sheet, [EmptyRow, Heading("Near Miss Report")], NearMissBody(v, nm));
  }

  /** The action points: one merged row, "[None]" when empty. */
  method WriteActionBlock(sheet: seq<Row>, row: nat, ap: string) returns (sheet': seq<Row>, row': nat)
    requires row == |sheet| + 2
    ensures sheet' == sheet + Block("Action Points / Recommendations", ActionBody(ap))
    ensures row' == |sheet'| + 1
  {
    sheet', row' := WriteHeading(sheet, row, "Action Points / Recommendations");
    var text := OrPlaceholder(ap, "[None]");
    ghost var h := sheet';
    PutNext(sheet', row', A, Plain(text, AnswerFont));
    sheet' := Put(sheet', row', A, Plain(text, AnswerFont));
    sheet' := Merge(sheet', row', AcrossAB);
    row' := row' + 1;
    assert sheet' == h + ActionBody(ap);
    Regroup3(sheet, [EmptyRow, Heading("Action Points / Recommendations")], ActionBody(ap));
  }

  method WriteLinksBlock(v: Version, sheet: seq<Row>, row: nat, urls: seq<string>) returns (sheet': seq<Row>, row': nat)
    requires row == |sheet| + 2
    ensures sheet' == sheet + Block(LinksTitle(v), LinksBody(urls))
    ensures row' == |sheet'| + 1
  {
    sheet', row' := WriteHeading(sheet, row, LinksTitle(v));
    sheet', row' := WriteLinks(sheet', row', urls);
    Regroup3(sheet, [EmptyRow, Heading(LinksTitle(v))], LinksBody(urls));
  }

  /** The checklist block body: v8.3's column-header row, then the sections. */
  method WriteChecklistBody(v: Version, sheet: seq<Row>, row: nat, answers: map<string, string>)
    returns (sheet': seq<Row>, row': nat)
    requires row == |sheet| + 1
    ensures sheet' == sheet + ChecklistBody(v, answers)
    ensures row' == |sheet'| + 1
  {
    sheet', row' := sheet, row;
    if v == V8 {
      PutNext(sheet', row', A, Plain("Question", QuestionFont));
      sheet' := Put(sheet', row', A, Plain("Question", QuestionFont));
      PutLast(sheet', row', B, Plain("Answer", AnswerFont));
      sheet' := Put(sheet', row', B, Plain("Answer", AnswerFont));
      row' := row' + 1;
    }
    ghost var header := sheet';
    sheet', row' := WriteSections(sheet', row', Structure, answers);
    Regroup3(sheet, header[|sheet|..], SectionsRows(Structure, answers));
    assert header == sheet + header[|sheet|..];
  }

  /** A block heading written after a spacer row. */
  method WriteHeading(sheet: seq<Row>, row: nat, title: string) returns (sheet': seq<Row>, row': nat)
    requires row == |sheet| + 2
    ensures sheet' == sheet + [EmptyRow, Heading(title)]
    ensures row' == |sheet'| + 1
  {
    PutAfterGap(sheet, row, A, Plain(title, BlockFont));
    sheet' := Put(sheet, row, A, Plain(title, BlockFont));
    sheet' := Merge(sheet', row, AcrossAB);
    row' := row + 1;
  }

  /** The metadata loop: one "Key:" / value row per field, in the order of
      `fields`. */
  method WriteMetadata(sheet: seq<Row>, row: nat, fields: seq<string>, meta: map<string, string>)
    returns (sheet': seq<Row>, row': nat)
    requires row == |sheet| + 1
    requires forall i :: 0 <= i < |fields| ==> fields[i] in meta
    ensures sheet' == sheet + RowsOf(MetadataForm(meta), fields)
    ensures row' == |sheet'| + 1
  {
    sheet', row' := sheet, row;
    for i := 0 to |fields|
      invariant sheet' == sheet + RowsOf(MetadataForm(meta), fields[..i])
      invariant row' == |sheet'| + 1
    {
      var k := fields[i];
      PutNext(sheet', row', A, Plain(k + ":", LabelFont));
      sheet' := Put(sheet', row', A, Plain(k + ":", LabelFont));
      PutLast(sheet', row', B, Plain(meta[k], ValueFont));
      sheet' := Put(sheet', row', B, Plain(meta[k], ValueFont));
      row' := row' + 1;
      RowsOfStep(MetadataForm(meta), fields, i);
    }
    assert fields[..|fields|] == fields;
  }

  /** The question loop of one section. */
  method WriteQuestions(sheet: seq<Row>, row: nat, qs: seq<Question>, answers: map<string, string>)
    returns (sheet': seq<Row>, row': nat)
    requires row == |sheet| + 1
    ensures sheet' == sheet + QuestionRows(qs, answers)
    ensures row' == |sheet'| + 1
  {
    sheet', row' := sheet, row;
    for j := 0 to |qs|
      invariant sheet' == sheet + QuestionRows(qs[..j], answers)
      invariant row' == |sheet'| + 1
    {
      var q := qs[j];
      var qd := DisplayText(q);
      var a := GetOr(answers, q.text, "[N/A]");
      PutNext(sheet', row', A, Plain(qd, QuestionFont));
      sheet' := Put(sheet', row', A, Plain(qd, QuestionFont));
      PutLast(sheet', row', B, Plain(OrPlaceholder(a, "[N/A]"), AnswerFont));
      sheet' := Put(sheet', row', B, Plain(OrPlaceholder(a, "[N/A]"), AnswerFont));
      row' := row' + 1;
      assert qs[..j + 1][..j] == qs[..j];
    }
    assert qs[..|qs|] == qs;
  }

  /** The section loop: a merged title row, then the section's questions. */
  method WriteSections(sheet: seq<Row>, row: nat, ss: seq<Section>, answers: map<string, string>)
    returns (sheet': seq<Row>, row': nat)
    requires row == |sheet| + 1
    ensures sheet' == sheet + SectionsRows(ss, answers)
    ensures row' == |sheet'| + 1
  {
    sheet', row' := sheet, row;
    for k := 0 to |ss|
      invariant sheet' == sheet + SectionsRows(ss[..k], answers)
      invariant row' == |sheet'| + 1
    {
      var s := ss[k];
      ghost var before := sheet';
      PutNext(sheet', row', A, Plain(s.title, SectionFont));
      sheet' := Put(sheet', row', A, Plain(s.title, SectionFont));
      sheet' := Merge(sheet', row', AcrossAB);
      row' := row' + 1;
      assert sheet' == before + [SectionTitleRow(s)];
      sheet', row' := WriteQuestions(sheet', row', s.questions, answers);
      SectionsRowsStep(ss, k, answers);
      Regroup(sheet, SectionsRows(ss[..k], answers), [SectionTitleRow(s)], QuestionRows(s.questions, answers));
    }
    assert ss[..|ss|] == ss;
  }

  /** The near-miss block body: the detail rows and evidence links when any
      detail is filled, otherwise the "[No Near Miss Recorded]" row. */
  method WriteNearMiss(v: Version, sheet: seq<Row>, row: nat, nm: NearMissData) returns (sheet': seq<Row>, row': nat)
    requires row == |sheet| + 1
    ensures sheet' == sheet + NearMissBody(v, nm)
    ensures row' == |sheet'| + 1
  {
    sheet', row' := sheet, row;
    if AnyDetail(nm.details) {
      sheet', row' := WriteDetails(sheet', row', nm.details);
      sheet', row' := WriteEvidence(v, sheet', row', nm.attachments);
      Regroup3(sheet, RowsOf(DetailForm(nm.details), NearMissFields), EvidenceRows(v, nm.attachments));
    } else {
      PutNext(sheet', row', A, Plain("[No Near Miss Recorded]", AnswerFont));
      sheet' := Put(sheet', row', A, Plain("[No Near Miss Recorded]", AnswerFont));
      sheet' := Merge(sheet', row', AcrossAB);
      row' := row' + 1;
    }
  }

  /** The near-miss details loop: one "Key:" / value-or-"[N/A]" row per field. */
  method WriteDetails(sheet: seq<Row>, row: nat, details: map<string, string>) returns (sheet': seq<Row>, row': nat)
    requires row == |sheet| + 1
    ensures sheet' == sheet + RowsOf(DetailForm(details), NearMissFields)
    ensures row' == |sheet'| + 1
  {
    sheet', row' := sheet, row;
    for i := 0 to |NearMissFields|
      invariant sheet' == sheet + RowsOf(DetailForm(details), NearMissFields[..i])
      invariant row' == |sheet'| + 1
    {
      var k := NearMissFields[i];
      var caption := ReplaceChar(k, '_', ' ') + ":";
      var value := OrPlaceholder(GetOr(details, k, ""), "[N/A]");
      ghost var before := sheet';
      PutNext(sheet', row', A, Plain(caption, LabelFont));
      sheet' := Put(sheet', row', A, Plain(caption, LabelFont));
      PutLast(sheet', row', B, Plain(value, AnswerFont));
      sheet' := Put(sheet', row', B, Plain(value, AnswerFont));
      row' := row' + 1;
      assert sheet' == before + [RowOf(DetailForm(details), k)];
      RowsOfStep(DetailForm(details), NearMissFields, i);
    }
    assert NearMissFields[..|NearMissFields|] == NearMissFields;
  }

  /** The evidence label and its links; the counter then advances past the
      rows the links took, or past the "[None]" row. */
  method WriteEvidence(v: Version, sheet: seq<Row>, row: nat, atts: seq<string>) returns (sheet': seq<Row>, row': nat)
    requires row == |sheet| + 1
    ensures sheet' == sheet + EvidenceRows(v, atts)
    ensures row' == |sheet'| + 1
  {
    PutNext(sheet, row, A, EvidenceLabel());
    sheet' := Put(sheet, row, A, EvidenceLabel());
    if atts != [] {
      if v == V7 || |atts| > 1 {
        sheet' := Merge(sheet', row, LabelSpan(v, |atts|));
      }
      var labelRow := Row(Some(EvidenceLabel()), None, LabelSpan(v, |atts|));
      assert sheet' == sheet + [labelRow];
      assert sheet'[..row - 1] == sheet && sheet'[row - 1] == labelRow;
      sheet' := WriteEvidenceLinks(sheet', row, atts);
      var firstRow := SetCell(labelRow, B, LinkCell(atts[0]));
      var links := RowsOf(LinkInB, atts[1..]);
      assert sheet' == sheet + [firstRow] + links;
      assert EvidenceRows(v, atts) == [firstRow] + links;
      Regroup3(sheet, [firstRow], links);
      row' := row + |atts|;
    } else {
      PutLast(sheet', row, B, Plain("[None]", LinkFont));
      sheet' := Put(sheet', row, B, Plain("[None]", LinkFont));
      row' := row + 1;
    }
  }

  /** The link loop: the i-th link goes to column B of row `start + i`, so
      the first one shares the label's row. */
  method WriteEvidenceLinks(sheet: seq<Row>, start: nat, atts: seq<string>) returns (sheet': seq<Row>)
    requires atts != [] && 1 <= start == |sheet|
    ensures sheet' == sheet[..start - 1] + [SetCell(sheet[start - 1], B, LinkCell(atts[0]))] + RowsOf(LinkInB, atts[1..])
  {
    ghost var init := sheet[..start - 1];
    ghost var first := SetCell(sheet[start - 1], B, LinkCell(atts[0]));
    sheet' := sheet;
    for i := 0 to |atts|
      invariant i == 0 ==> sheet' == sheet
      invariant i > 0 ==> sheet' == init + [first] + RowsOf(LinkInB, atts[1..i])
    {
      if i == 0 {
        PutLast(sheet', start + i, B, LinkCell(atts[i]));
        assert atts[1..1] == [];
      } else {
        PutNext(sheet', start + i, B, LinkCell(atts[i]));
        RowsOfStep(LinkInB, atts[1..], i - 1);
        assert atts[1..][..i] == atts[1..i + 1] && atts[1..][..i - 1] == atts[1..i];
      }
      sheet' := Put(sheet', start + i, B, LinkCell(atts[i]));
    }
    assert atts[1..|atts|] == atts[1..];
  }

  /** The general links loop: one merged link row per URL, or one "[None]" row. */
  method WriteLinks(sheet: seq<Row>, row: nat, urls: seq<string>) returns (sheet': seq<Row>, row': nat)
    requires row == |sheet| + 1
    ensures sheet' == sheet + LinksBody(urls)
    ensures row' == |sheet'| + 1
  {
    sheet', row' := sheet, row;
    if urls != [] {
      for i := 0 to |urls|
        invariant sheet' == sheet + RowsOf(LinkAcross, urls[..i])
        invariant row' == |sheet'| + 1
      {
        PutNext(sheet', row', A, LinkCell(urls[i]));
        sheet' := Put(sheet', row', A, LinkCell(urls[i]));
        sheet' := Merge(sheet', row', AcrossAB);
        row' := row' + 1;
        assert urls[..i + 1][..i] == urls[..i];
      }
      assert urls[..|urls|] == urls;
    } else {
      PutNext(sheet', row', A, Plain("[None]", LinkFont));
      sheet' := Put(sheet', row', A, Plain("[None]", LinkFont));
      sheet' := Merge(sheet', row', AcrossAB);
      row' := row' + 1;
    }
  }
}
