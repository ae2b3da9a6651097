/** The PDF report (`_export_to_pdf`): the story of flowables handed to the
    page builder, the markup escaping of user text, the link paragraphs and
    the two-fields-per-row metadata table. Page layout, fonts and colours
    belong to the PDF library and are not modelled. */
module Pdf {
  import opened Common
  import opened Checklist
  import opened Record

  // ---------------------------------------------------------------------------
  // Escaping user text for paragraph markup
  // ---------------------------------------------------------------------------

  /** Python's `s.replace(c, r)` for a single character `c`. */
  function ReplaceBy(s: string, c: char, r: string): string {
    if s == [] then [] else (if s[0] == c then r else [s[0]]) + ReplaceBy(s[1..], c, r)
  }

  /** `replace` on a string with a known first character. */
  lemma ReplaceByCons(x: char, s: string, c: char, r: string)
    ensures ReplaceBy([x] + s, c, r) == (if x == c then r else [x]) + ReplaceBy(s, c, r)
  {
    assert ([x] + s)[0] == x && ([x] + s)[1..] == s;
  }

  /** `replace` works on each part of a concatenation separately. */
  lemma {:induction false} ReplaceByAppend(a: string, b: string, c: char, r: string)
    ensures ReplaceBy(a + b, c, r) == ReplaceBy(a, c, r) + ReplaceBy(b, c, r)
  {
    if a == [] {
      assert a + b == b;
    } else {
      var h := if a[0] == c then r else [a[0]];
      assert a + b == [a[0]] + (a[1..] + b);
      ReplaceByCons(a[0], a[1..] + b, c, r);
      ReplaceByAppend(a[1..], b, c, r);
      assert a == [a[0]] + a[1..];
      ReplaceByCons(a[0], a[1..], c, r);
      assert h + (ReplaceBy(a[1..], c, r) + ReplaceBy(b, c, r)) == (h + ReplaceBy(a[1..], c, r)) + ReplaceBy(b, c, r);
    }
  }

  /** Replacing a character by itself changes nothing. */
  lemma {:induction false} ReplaceBySelf(s: string, c: char)
    ensures ReplaceBy(s, c, [c]) == s
  {
    if s != [] {
      ReplaceBySelf(s[1..], c);
      assert s == [s[0]] + s[1..];
    }
  }

  /** `pdf_escape` as written in both versions: the three markup characters
      are "replaced" by themselves, so only newlines change. */
  function PdfEscapeAsWritten(t: string): string {
    if t == [] then ""
    else ReplaceBy(ReplaceBy(ReplaceBy(ReplaceBy(t, '&', "&"), '<', "<"), '>', ">"), '\n', "<br/>")
  }

  /** `pdf_escape` as evidently intended: the same chain of replacements with
      the markup entities, ampersand first. */
  function PdfEscape(t: string): string {
    if t == [] then ""
    else ReplaceBy(ReplaceBy(ReplaceBy(ReplaceBy(t, '&', "&amp;"), '<', "&lt;"), '>', "&gt;"), '\n', "<br/>")
  }

  /** The characters the escape rewrites. */
  predicate Special(c: char) {
    c == '&' || c == '<' || c == '>' || c == '\n'
  }

  /** What the chain does to one character. */
  function EscapeChar(c: char): string {
    if c == '&' then "&amp;"
    else if c == '<' then "&lt;"
    else if c == '>' then "&gt;"
    else if c == '\n' then "<br/>"
    else [c]
  }

  /** Character-by-character escaping, defined from the front. */
  function EscapeEach(t: string): string {
    if t == [] then [] else EscapeChar(t[0]) + EscapeEach(t[1..])
  }

  /** The sequential `replace` chain escapes each character on its own: no
      later replacement rewrites what an earlier one inserted. */
  lemma {:induction false} EscapeIsPerChar(t: string)
    ensures PdfEscape(t) == EscapeEach(t)
  {
    if t != [] {
      var c := t[0];
      var rest := t[1..];
      assert t == [c] + rest;
      var s1 := ReplaceBy(t, '&', "&amp;");
      ReplaceByAppend([c], rest, '&', "&amp;");
      var r1 := ReplaceBy(rest, '&', "&amp;");
      var c1 := ReplaceBy([c], '&', "&amp;");
      ReplaceByAppend(c1, r1, '<', "&lt;");
      var r2 := ReplaceBy(r1, '<', "&lt;");
      var c2 := ReplaceBy(c1, '<', "&lt;");
      ReplaceByAppend(c2, r2, '>', "&gt;");
      var r3 := ReplaceBy(r2, '>', "&gt;");
      var c3 := ReplaceBy(c2, '>', "&gt;");
      ReplaceByAppend(c3, r3, '\n', "<br/>");
      var c4 := ReplaceBy(c3, '\n', "<br/>");
      assert c4 == EscapeChar(c) by { CharChain(c); }
      EscapeIsPerChar(rest);
      if rest == [] {
        ReplaceByEmpty(rest);
      }
    }
  }

  lemma ReplaceByEmpty(rest: string)
    requires rest == []
    ensures ReplaceBy(ReplaceBy(ReplaceBy(ReplaceBy(rest, '&', "&amp;"), '<', "&lt;"), '>', "&gt;"), '\n', "<br/>") == []
  {
  }

  /** The chain applied to a single character. */
  lemma CharChain(c: char)
    ensures ReplaceBy(ReplaceBy(ReplaceBy(ReplaceBy([c], '&', "&amp;"), '<', "&lt;"), '>', "&gt;"), '\n', "<br/>")
      == EscapeChar(c)
  {
    if c == '&' {
      AmpChain();
    } else if c == '<' {
      LtChain();
    } else if c == '>' {
      GtChain();
    } else {
      assert [c] + [] == [c];
      ReplaceByCons(c, [], '&', "&amp;");
      ReplaceByCons(c, [], '<', "&lt;");
      ReplaceByCons(c, [], '>', "&gt;");
      ReplaceByCons(c, [], '\n', "<br/>");
    }
  }

  lemma AmpChain()
    ensures ReplaceBy(ReplaceBy(ReplaceBy(ReplaceBy("&", '&', "&amp;"), '<', "&lt;"), '>', "&gt;"), '\n', "<br/>") == "&amp;"
  {
    var s := "&amp;";
    assert ['&'] + [] == "&" && s + [] == s;
    ReplaceByCons('&', [], '&', s);
    ReplaceByAbsent(s, '<', "&lt;");
    ReplaceByAbsent(s, '>', "&gt;");
    ReplaceByAbsent(s, '\n', "<br/>");
  }

  /** `replace` of a character that does not occur changes nothing. */
  lemma {:induction false} ReplaceByAbsent(s: string, c: char, r: string)
    requires forall i :: 0 <= i < |s| ==> s[i] != c
    ensures ReplaceBy(s, c, r) == s
  {
    if s != [] {
      ReplaceByAbsent(s[1..], c, r);
      assert s == [s[0]] + s[1..];
    }
  }

  lemma LtChain()
    ensures ReplaceBy(ReplaceBy(ReplaceBy(ReplaceBy("<", '&', "&amp;"), '<', "&lt;"), '>', "&gt;"), '\n', "<br/>") == "&lt;"
  {
  }

  lemma GtChain()
    ensures ReplaceBy(ReplaceBy(ReplaceBy(ReplaceBy(">", '&', "&amp;"), '<', "&lt;"), '>', "&gt;"), '\n', "<br/>") == "&gt;"
  {
  }

  /** How the paragraph parser reads escaped markup back into text: the three
      entities and `<br/>` stand for their characters. */
  function Unescape(s: string): string
    decreases |s|
  {
    if s == [] then []
    else if StartsWith(s, "&amp;") then "&" + Unescape(s[5..])
    else if StartsWith(s, "&lt;") then "<" + Unescape(s[4..])
    else if StartsWith(s, "&gt;") then ">" + Unescape(s[4..])
    else if StartsWith(s, "<br/>") then "\n" + Unescape(s[5..])
    else [s[0]] + Unescape(s[1..])
  }

  lemma UnescapeStep(c: char, rest: string)
    ensures Unescape(EscapeChar(c) + rest) == [c] + Unescape(rest)
  {
    var e := EscapeChar(c);
    var s := e + rest;
    assert s[..|e|] == e && s[|e|..] == rest;
    if !Special(c) {
      assert s[0] == c && s[1..] == rest;
      DiffersAt(s, "&amp;", 0);
      DiffersAt(s, "&lt;", 0);
      DiffersAt(s, "&gt;", 0);
      DiffersAt(s, "<br/>", 0);
    } else if c == '<' {
      assert s[1] == 'l';
      DiffersAt(s, "&amp;", 1);
    } else if c == '>' {
      assert s[1] == 'g';
      DiffersAt(s, "&amp;", 1);
      DiffersAt(s, "&lt;", 1);
    } else if c == '\n' {
      assert s[0] == '<';
      DiffersAt(s, "&amp;", 0);
      DiffersAt(s, "&lt;", 0);
      DiffersAt(s, "&gt;", 0);
    }
  }

  /** Escaping round trip: the text the parser reads from the escaped markup
      is exactly the user's text. */
  lemma {:induction false} EscapeRoundTrip(t: string)
    ensures Unescape(PdfEscape(t)) == t
  {
    EscapeIsPerChar(t);
    EscapeEachRoundTrip(t);
  }

  lemma {:induction false} EscapeEachRoundTrip(t: string)
    ensures Unescape(EscapeEach(t)) == t
  {
    if t != [] {
      UnescapeStep(t[0], EscapeEach(t[1..]));
      EscapeEachRoundTrip(t[1..]);
      assert t == [t[0]] + t[1..];
    }
  }

  /** Escaping leaves text without markup characters or newlines unchanged. */
  lemma EscapePlain(t: string)
    requires forall i :: 0 <= i < |t| ==> !Special(t[i])
    ensures PdfEscape(t) == t
  {
    EscapeIsPerChar(t);
    EscapeEachPlain(t);
  }

  lemma {:induction false} EscapeEachPlain(t: string)
    requires forall i :: 0 <= i < |t| ==> !Special(t[i])
    ensures EscapeEach(t) == t
  {
    if t != [] {
      assert !Special(t[0]);
      EscapeEachPlain(t[1..]);
      assert t == [t[0]] + t[1..];
    }
  }

  /** The written escape only turns newlines into `<br/>`: a markup character
      is passed through raw. */
  lemma {:induction false} AsWrittenOnlyNewlines(t: string)
    ensures PdfEscapeAsWritten(t) == ReplaceBy(t, '\n', "<br/>")
  {
    ReplaceBySelf(t, '&');
    ReplaceBySelf(t, '<');
    ReplaceBySelf(t, '>');
  }

  /** The input that shows the written escape failing: the user types the
      four characters "&lt;", the escape passes them through, and the
      paragraph parser shows them as the single character '<'. */
  lemma AsWrittenCounterexample()
    ensures PdfEscapeAsWritten("&lt;") == "&lt;"
    ensures Unescape(PdfEscapeAsWritten("&lt;")) == "<" != "&lt;"
  {
    AsWrittenKeepsEntity();
    UnescapeLt();
  }

  lemma AsWrittenKeepsEntity()
    ensures PdfEscapeAsWritten("&lt;") == "&lt;"
  {
    AsWrittenOnlyNewlines("&lt;");
    ReplaceByAbsent("&lt;", '\n', "<br/>");
  }

  /** The parser reads the entity "&lt;" as '<'. */
  lemma UnescapeLt()
    ensures Unescape("&lt;") == "<"
  {
    var s: string := "&lt;";
    DiffersAt(s, "&amp;", 1);
    assert StartsWith(s, "&lt;");
    assert s[4..] == [];
  }

  /** A raw markup character reaches the paragraph as written; the intended
      escape turns it into its entity. */
  lemma AsWrittenRawMarkup()
    ensures PdfEscapeAsWritten("<") == "<"
    ensures PdfEscape("<") == "&lt;"
  {
    AsWrittenOnlyNewlines("<");
    CharChain('<');
  }

  // ---------------------------------------------------------------------------
  // Flowables
  // ---------------------------------------------------------------------------

  /** The paragraph styles of the story, by name. */
  datatype Style = MainHeader | SubHeader | MetaHeader | MetaLabel | MetaValue | SectionHeader
                 | QuestionStyle | AnswerStyle | AnswerEmpty | FieldLabel | FieldValue
                 | AttachLabel | AttachmentLink

  datatype Paragraph = Paragraph(markup: string, style: Style)

  /** A table cell: a paragraph, or the empty string the source puts in the
      second pair of the last row. */
  datatype TableCell = EmptyCell | Filled(p: Paragraph)

  datatype TableRow = TableRow(label1: Paragraph, value1: Paragraph, label2: TableCell, value2: TableCell)

  datatype Flowable =
    | Para(p: Paragraph)
    | MetaTable(rows: seq<TableRow>)
    | Spacer
    | PageBreak
    | KeepTogether(items: seq<Paragraph>)

  // ---------------------------------------------------------------------------
  // Link paragraphs
  // ---------------------------------------------------------------------------

  /** The visible part of a link: the escaped URL if shorter than 70
      characters, else its first 67 characters and "...". */
  function DisplayUrl(e: string): (r: string)
    ensures |r| <= 70
    ensures |e| < 70 ==> r == e
    ensures |e| >= 70 ==> |r| == 70 && r[..67] == e[..67] && r[67..] == "..."
  {
    if |e| < 70 then e else e[..67] + "..."
  }

  /** `create_link_paragraph`: an "http" URL becomes a link whose target is
      the whole escaped URL; anything else is shown as grey text, or as
      "[Invalid Link]" when empty. */
  function LinkParagraph(url: string): Paragraph {
    if url != "" && StartsWith(url, "http") then
      var e := PdfEscape(url);
      Paragraph("<link href=\"" + e + "\">" + DisplayUrl(e) + "</link>", AttachmentLink)
    else
      Paragraph(if url != "" then PdfEscape(url) else "[Invalid Link]", AnswerEmpty)
  }

  /** A link paragraph carries the full URL as its target, never a label
      longer than 70 characters, and an empty or non-"http" URL is never a link. */
  lemma LinkParagraphShape(url: string)
    ensures StartsWith(url, "http") ==>
      var e := PdfEscape(url);
      && LinkParagraph(url).style == AttachmentLink
      && StartsWith(LinkParagraph(url).markup, "<link href=\"" + e + "\">")
      && Unescape(e) == url
    ensures StartsWith(url, "http") ==>
      LinkParagraph(url).markup == "<link href=\"" + PdfEscape(url) + "\">" + DisplayUrl(PdfEscape(url)) + "</link>"
      && |DisplayUrl(PdfEscape(url))| <= 70
    ensures !StartsWith(url, "http") ==> LinkParagraph(url).style == AnswerEmpty
    ensures url != "" && !StartsWith(url, "http") ==>
      LinkParagraph(url).markup == PdfEscape(url) && Unescape(LinkParagraph(url).markup) == url
    ensures url == "" ==> LinkParagraph(url).markup == "[Invalid Link]"
  {
    EscapeRoundTrip(url);
    if StartsWith(url, "http") {
      var e := PdfEscape(url);
      var prefix := "<link href=\"" + e + "\">";
      var m := prefix + DisplayUrl(e) + "</link>";
      assert m[..|prefix|] == prefix;
    }
  }

  // ---------------------------------------------------------------------------
  // The metadata table
  // ---------------------------------------------------------------------------

  function LabelMarkup(key: string): string {
    "<b>" + key + ":</b>"
  }

  /** A metadata value paragraph: the escaped value, or "[N/A]". */
  function MetaValuePara(meta: map<string, string>, key: string): Paragraph {
    var e := PdfEscape(GetOr(meta, key, ""));
    Paragraph(if e != "" then e else "[N/A]", MetaValue)
  }

  /** The table row that starts with field `i`: fields `i` and `i + 1`, or
      field `i` and two empty cells when it is the last field. */
  function PairRow(fields: seq<string>, meta: map<string, string>, i: nat): TableRow
    requires i < |fields|
  {
    TableRow(Paragraph(LabelMarkup(fields[i]), MetaLabel), MetaValuePara(meta, fields[i]),
      if i + 1 < |fields| then Filled(Paragraph(LabelMarkup(fields[i + 1]), MetaLabel)) else EmptyCell,
      if i + 1 < |fields| then Filled(MetaValuePara(meta, fields[i + 1])) else EmptyCell)
  }

  /** The first `k` rows of the table. */
  function PairRows(fields: seq<string>, meta: map<string, string>, k: nat): (r: seq<TableRow>)
    requires 2 * k <= |fields| + 1
    ensures |r| == k
  {
    if k == 0 then [] else PairRows(fields, meta, k - 1) + [PairRow(fields, meta, 2 * (k - 1))]
  }

  /** Row `j` of the table starts with field `2j`. */
  lemma {:induction false} PairRowsAt(fields: seq<string>, meta: map<string, string>, k: nat, j: nat)
    requires 2 * k <= |fields| + 1 && j < k
    ensures PairRows(fields, meta, k)[j] == PairRow(fields, meta, 2 * j)
  {
    var init := PairRows(fields, meta, k - 1);
    assert PairRows(fields, meta, k) == init + [PairRow(fields, meta, 2 * (k - 1))];
    if j < k - 1 {
      PairRowsAt(fields, meta, k - 1, j);
      assert PairRows(fields, meta, k)[j] == init[j];
    }
  }

  function MetadataTable(meta: map<string, string>): seq<TableRow> {
    PairRows(MetadataFields, meta, (|MetadataFields| + 1) / 2)
  }

  /** The nine metadata fields fill five rows, two per row: row `r` holds
      field `2r` on the left and field `2r + 1` on the right, except the last
      row, whose right half is empty. */
  lemma MetadataTableLayout(meta: map<string, string>)
    ensures |MetadataTable(meta)| == 5
    ensures forall r :: 0 <= r < 5 ==>
      MetadataTable(meta)[r].label1 == Paragraph(LabelMarkup(MetadataFields[2 * r]), MetaLabel)
      && MetadataTable(meta)[r].value1 == MetaValuePara(meta, MetadataFields[2 * r])
    ensures forall r :: 0 <= r < 4 ==>
      MetadataTable(meta)[r].label2 == Filled(Paragraph(LabelMarkup(MetadataFields[2 * r + 1]), MetaLabel))
      && MetadataTable(meta)[r].value2 == Filled(MetaValuePara(meta, MetadataFields[2 * r + 1]))
    ensures MetadataTable(meta)[4].label2 == EmptyCell && MetadataTable(meta)[4].value2 == EmptyCell
  {
    forall r | 0 <= r < 5
      ensures MetadataTable(meta)[r] == PairRow(MetadataFields, meta, 2 * r)
    {
      PairRowsAt(MetadataFields, meta, 5, r);
    }
  }

  /** A value paragraph shows the stored text (as the parser reads it back)
      or "[N/A]" when the field is missing or empty. */
  lemma MetaValueShows(meta: map<string, string>, key: string)
    ensures key in meta && meta[key] != "" ==> Unescape(MetaValuePara(meta, key).markup) == meta[key]
    ensures key !in meta || meta[key] == "" ==> MetaValuePara(meta, key).markup == "[N/A]"
  {
    EscapeRoundTrip(GetOr(meta, key, ""));
  }

  // ---------------------------------------------------------------------------
  // The story
  // ---------------------------------------------------------------------------

  /** "Date: … | WH: … | Loc: …" with "N/A" for a missing field. */
  function SubHeaderText(meta: map<string, string>): string {
    "Date: " + PdfEscape(GetOr(meta, ReportDate, "N/A"))
      + " | WH: " + PdfEscape(GetOr(meta, "Warehouse Name", "N/A"))
      + " | Loc: " + PdfEscape(GetOr(meta, "Location", "N/A"))
  }

  /** A question's paragraph: its escaped display label. */
  function QuestionPara(q: Question): Paragraph {
    Paragraph(PdfEscape(DisplayText(q)), QuestionStyle)
  }

  /** An answer's paragraph: the escaped answer, or "[N/A]" in the empty
      style when the answer is missing or empty. */
  function AnswerPara(q: Question, answers: map<string, string>): Paragraph {
    if q.text in answers && answers[q.text] != "" then Paragraph(PdfEscape(answers[q.text]), AnswerStyle)
    else Paragraph("[N/A]", AnswerEmpty)
  }

  /** The paragraphs of `qs`: a label and an answer per question. */
  function QuestionsParas(qs: seq<Question>, answers: map<string, string>): (r: seq<Paragraph>)
    ensures |r| == 2 * |qs|
  {
    if qs == [] then []
    else QuestionsParas(qs[..|qs| - 1], answers) + [QuestionPara(qs[|qs| - 1]), AnswerPara(qs[|qs| - 1], answers)]
  }

  /** Question `j` has its label at `2j` and its answer right after it. */
  lemma {:induction false} QuestionsParasAt(qs: seq<Question>, answers: map<string, string>, j: nat)
    requires j < |qs|
    ensures QuestionsParas(qs, answers)[2 * j] == QuestionPara(qs[j])
    ensures QuestionsParas(qs, answers)[2 * j + 1] == AnswerPara(qs[j], answers)
  {
    var init := qs[..|qs| - 1];
    if j < |qs| - 1 {
      QuestionsParasAt(init, answers, j);
      assert init[j] == qs[j];
    }
  }

  /** A section's group: its title (not escaped), then its questions and answers. */
  function SectionItems(s: Section, answers: map<string, string>): seq<Paragraph> {
    [Paragraph(s.title, SectionHeader)] + QuestionsParas(s.questions, answers)
  }

  /** One group per section, each kept together on a page. */
  function SectionGroups(ss: seq<Section>, answers: map<string, string>): (r: seq<Flowable>)
    ensures |r| == |ss|
    ensures forall k :: 0 <= k < |ss| ==> r[k] == KeepTogether(SectionItems(ss[k], answers))
  {
    if ss == [] then [] else SectionGroups(ss[..|ss| - 1], answers) + [KeepTogether(SectionItems(ss[|ss| - 1], answers))]
  }

  /** The labels the near-miss block shows for its five fields. */
  const FieldLabels: seq<string> := ["Date", "Location", "Description", "Action", "Prevention"]

  /** Label and value of near-miss field `i`. */
  function DetailParas(details: map<string, string>, i: nat): seq<Paragraph>
    requires i < 5
  {
    var e := PdfEscape(GetOr(details, NearMissFields[i], ""));
    [Paragraph(LabelMarkup(FieldLabels[i]), FieldLabel), Paragraph(if e != "" then e else "[N/A]", FieldValue)]
  }

  /** The first `n` near-miss fields. */
  function DetailsParas(details: map<string, string>, n: nat): (r: seq<Paragraph>)
    requires n <= 5
    ensures |r| == 2 * n
  {
    if n == 0 then [] else DetailsParas(details, n - 1) + DetailParas(details, n - 1)
  }

  /** Field `i` takes the two paragraphs at `2i` and `2i + 1`. */
  lemma {:induction false} DetailsParasAt(details: map<string, string>, n: nat, i: nat)
    requires i < n <= 5
    ensures DetailsParas(details, n)[2 * i] == DetailParas(details, i)[0]
    ensures DetailsParas(details, n)[2 * i + 1] == DetailParas(details, i)[1]
  {
    var init := DetailsParas(details, n - 1);
    assert DetailsParas(details, n) == init + DetailParas(details, n - 1);
    if i < n - 1 {
      DetailsParasAt(details, n - 1, i);
      assert DetailsParas(details, n)[2 * i] == init[2 * i];
      assert DetailsParas(details, n)[2 * i + 1] == init[2 * i + 1];
    }
  }

  /** `[create_link_paragraph(url) for url in urls]` */
  function LinkParas(urls: seq<string>): (r: seq<Paragraph>)
    ensures |r| == |urls|
    ensures forall i :: 0 <= i < |urls| ==> r[i] == LinkParagraph(urls[i])
  {
    if urls == [] then [] else LinkParas(urls[..|urls| - 1]) + [LinkParagraph(urls[|urls| - 1])]
  }

  /** The link paragraphs, or a single "[None]" when there are no links. */
  function NoneParas(urls: seq<string>): (r: seq<Paragraph>)
    ensures |r| == if urls == [] then 1 else |urls|
  {
    if urls == [] then [Paragraph("[None]", AnswerEmpty)] else LinkParas(urls)
  }

  /** The near-miss block: the field label/value pairs and the evidence links
      kept together, or the "[No Near Miss Recorded]" line. */
  function NearMissBlock(nm: NearMissData): (r: seq<Flowable>)
    ensures |r| == 1
  {
    if AnyDetail(nm.details) then
      [KeepTogether(DetailsParas(nm.details, 5)
        + [Paragraph("<b>Evidence Links (Near Miss):</b>", AttachLabel)] + NoneParas(nm.attachments))]
    else [Para(Paragraph("[No Near Miss Recorded]", AnswerEmpty))]
  }

  function Paras(ps: seq<Paragraph>): (r: seq<Flowable>)
    ensures |r| == |ps| && forall i :: 0 <= i < |ps| ==> r[i] == Para(ps[i])
  {
    if ps == [] then [] else Paras(ps[..|ps| - 1]) + [Para(ps[|ps| - 1])]
  }

  function ActionPara(ap: string): Paragraph {
    if ap != "" then Paragraph(PdfEscape(ap), AnswerStyle) else Paragraph("[None]", AnswerEmpty)
  }

  /** The title, the sub-header line and the metadata table. */
  function StoryHead(d: ProjectData): (r: seq<Flowable>)
    ensures |r| == 6
    ensures r[0] == Para(Paragraph("Warehouse Safety Compliance Report", MainHeader))
    ensures r[1] == Para(Paragraph(SubHeaderText(d.metadata), SubHeader))
    ensures r[2] == Para(Paragraph("Report Information", MetaHeader))
    ensures r[3] == MetaTable(MetadataTable(d.metadata)) && r[4] == Spacer
    ensures r[5] == Para(Paragraph("Checklist Items", MetaHeader))
  {
    [Para(Paragraph("Warehouse Safety Compliance Report", MainHeader)),
     Para(Paragraph(SubHeaderText(d.metadata), SubHeader)),
     Para(Paragraph("Report Information", MetaHeader)),
     MetaTable(MetadataTable(d.metadata)),
     Spacer,
     Para(Paragraph("Checklist Items", MetaHeader))]
  }

  /** The action points and the general links that close the report. */
  function StoryTail(v: Version, d: ProjectData): (r: seq<Flowable>)
    ensures |r| == 5 + |NoneParas(d.generalAttachments)|
  {
    [Spacer, Para(Paragraph("Action Points / Recommendations", MetaHeader)), Para(ActionPara(d.actionPoints)),
     Spacer, Para(Paragraph(LinksTitle(v), MetaHeader))]
    + Paras(NoneParas(d.generalAttachments))
  }

  /** The story from its parts: the head, the section groups, the near-miss
      report on a new page, and the tail. */
  function Assemble(head: seq<Flowable>, groups: seq<Flowable>, block: seq<Flowable>, tail: seq<Flowable>)
    : seq<Flowable>
  {
    head + groups + [PageBreak, Para(Paragraph("Near Miss Report", MetaHeader))] + block + tail
  }

  /** Section group `k` lands right after the head. */
  lemma AssembleGroup(head: seq<Flowable>, groups: seq<Flowable>, block: seq<Flowable>, tail: seq<Flowable>, k: nat)
    requires k < |groups|
    ensures Assemble(head, groups, block, tail)[|head| + k] == groups[k]
  {
    var s := head + groups;
    assert s[|head| + k] == groups[k];
  }

  /** The page break and the near-miss heading come right after the groups,
      then the near-miss block. */
  lemma AssembleNearMiss(head: seq<Flowable>, groups: seq<Flowable>, block: seq<Flowable>, tail: seq<Flowable>)
    requires |block| == 1
    ensures var s := Assemble(head, groups, block, tail); var n := |head| + |groups|;
      && s[n] == PageBreak
      && s[n + 1] == Para(Paragraph("Near Miss Report", MetaHeader))
      && s[n + 2] == block[0]
  {
  }

  /** The tail closes the story. */
  lemma AssembleTail(head: seq<Flowable>, groups: seq<Flowable>, block: seq<Flowable>, tail: seq<Flowable>)
    ensures var s := Assemble(head, groups, block, tail);
      && |s| == |head| + |groups| + 2 + |block| + |tail|
      && s[|head| + |groups| + 2 + |block|..] == tail
  {
  }

  /** The story the page builder lays out, in order. */
  function PdfStory(v: Version, d: ProjectData): seq<Flowable> {
    Assemble(StoryHead(d), SectionGroups(Structure, d.checklist), NearMissBlock(d.nearMiss), StoryTail(v, d))
  }

  /** The definition has nine sections. */
  lemma StructureSize()
    ensures |Structure| == 9
  {
  }

  /** A section's group: the title, then for question `j` its label at
      position `1 + 2j` and its answer right after it. */
  lemma ItemsAt(s: Section, answers: map<string, string>, j: nat)
    requires j < |s.questions|
    ensures SectionItems(s, answers)[0] == Paragraph(s.title, SectionHeader)
    ensures SectionItems(s, answers)[1 + 2 * j] == QuestionPara(s.questions[j])
    ensures SectionItems(s, answers)[2 + 2 * j] == AnswerPara(s.questions[j], answers)
  {
    QuestionsParasAt(s.questions, answers, j);
  }

  /** The checklist part of the story: one group per section in order, right
      after the six head items. */
  lemma ChecklistGroups(v: Version, d: ProjectData, k: nat, j: nat)
    requires k < |Structure| && j < |Structure[k].questions|
    ensures PdfStory(v, d)[6 + k] == KeepTogether(SectionItems(Structure[k], d.checklist))
    ensures SectionItems(Structure[k], d.checklist)[1 + 2 * j] == QuestionPara(Structure[k].questions[j])
    ensures SectionItems(Structure[k], d.checklist)[2 + 2 * j] == AnswerPara(Structure[k].questions[j], d.checklist)
  {
    AssembleGroup(StoryHead(d), SectionGroups(Structure, d.checklist), NearMissBlock(d.nearMiss), StoryTail(v, d), k);
    ItemsAt(Structure[k], d.checklist, j);
  }

  /** The near-miss report starts on a new page right after the nine section
      groups, and its block is the detail group exactly when some detail is
      filled in. */
  lemma NearMissOnNewPage(v: Version, d: ProjectData)
    ensures PdfStory(v, d)[15] == PageBreak
    ensures PdfStory(v, d)[16] == Para(Paragraph("Near Miss Report", MetaHeader))
    ensures PdfStory(v, d)[17].KeepTogether? <==> AnyDetail(d.nearMiss.details)
  {
    StructureSize();
    AssembleNearMiss(StoryHead(d), SectionGroups(Structure, d.checklist), NearMissBlock(d.nearMiss), StoryTail(v, d));
  }

  /** The story ends with the links heading and then one paragraph per
      general link, in order, or a single "[None]". */
  lemma LinksCloseStory(v: Version, d: ProjectData)
    ensures var story := PdfStory(v, d);
      && |story| == 23 + |NoneParas(d.generalAttachments)|
      && story[22] == Para(Paragraph(LinksTitle(v), MetaHeader))
      && story[23..] == Paras(NoneParas(d.generalAttachments))
  {
    StructureSize();
    var tail := StoryTail(v, d);
    AssembleTail(StoryHead(d), SectionGroups(Structure, d.checklist), NearMissBlock(d.nearMiss), tail);
    assert tail[4] == Para(Paragraph(LinksTitle(v), MetaHeader));
    assert tail[5..] == Paras(NoneParas(d.generalAttachments));
  }

  /** What the reader sees for a question and its answer: the label reads back
      as the display text, the answer as the stored answer. */
  lemma QuestionParasShow(q: Question, answers: map<string, string>)
    ensures Unescape(QuestionPara(q).markup) == DisplayText(q)
    ensures q.text in answers && answers[q.text] != "" ==>
      AnswerPara(q, answers).style == AnswerStyle && Unescape(AnswerPara(q, answers).markup) == answers[q.text]
    ensures q.text !in answers || answers[q.text] == "" ==> AnswerPara(q, answers) == Paragraph("[N/A]", AnswerEmpty)
  {
    EscapeRoundTrip(DisplayText(q));
    if q.text in answers {
      EscapeRoundTrip(answers[q.text]);
    }
  }

  // ---------------------------------------------------------------------------
  // The export
  // ---------------------------------------------------------------------------

  /** The module-level colour names, as both versions define them. */
  const DefinedColours: set<string> := {"PRIMARY_COLOR", "SECONDARY_COLOR", "ACCENT_COLOR", "TEXT_ON_PRIMARY",
    "TEXT_ON_SECONDARY", "BACKGROUND_COLOR", "FRAME_BG_COLOR", "DISABLED_COLOR", "ERROR_COLOR", "TEXT_COLOR_DARK",
    "TEXT_COLOR_LIGHT"}

  /** The module-level colour names the style sheet looks up, in order; the
      empty-answer style asks for `DARK_GREY`. */
  const StyleColours: seq<string> := ["SECONDARY_COLOR", "SECONDARY_COLOR", "PRIMARY_COLOR", "DARK_GREY"]

  /** The first name of `names` that is not defined, if any: the lookup that
      raises a NameError. */
  function FirstUndefined(names: seq<string>, defined: set<string>): (r: Option<string>)
    ensures r.None? <==> forall i :: 0 <= i < |names| ==> names[i] in defined
    ensures r.Some? ==> r.value in names && r.value !in defined
    ensures r.Some? ==>
      exists i :: (0 <= i < |names| && names[i] == r.value
        && forall j :: 0 <= j < i ==> names[j] in defined)
  {
    if names == [] then None
    else if names[0] !in defined then Some(names[0])
    else FirstUndefined(names[1..], defined)
  }

  datatype PdfResult = Built(story: seq<Flowable>) | NameError(name: string) | ValueError(unpacked: nat)

  /** One step of the metadata table loop as each version writes it. v8.3
      unpacks its right-hand pair with `p2_label, p2_value = ("", "") if … else
      (key2, val2, label, value)`: whenever a second field exists the tuple
      has four values, and unpacking it into two names raises a ValueError. */
  datatype RowResult = RowOk(row: TableRow) | TooManyValues(count: nat)

  function PairRowAsWritten(v: Version, fields: seq<string>, meta: map<string, string>, i: nat): RowResult
    requires i < |fields|
  {
    if v == V7 || i + 1 >= |fields| then RowOk(PairRow(fields, meta, i)) else TooManyValues(4)
  }

  /** `_export_to_pdf` as written, given the module-level colour names that
      exist: the style sheet is built first, then the metadata table, then the
      rest of the story (shown here with the corrected escape). */
  function ExportPdfAsWritten(v: Version, d: ProjectData, defined: set<string>): PdfResult {
    match FirstUndefined(StyleColours, defined)
    case Some(name) => NameError(name)
    case None =>
      match PairRowAsWritten(v, MetadataFields, d.metadata, 0)
      case TooManyValues(n) => ValueError(n)
      case RowOk(_) => Built(PdfStory(v, d))
  }

  /** As written, every PDF export fails with a NameError on `DARK_GREY`
      before any page is produced. */
  lemma PdfAlwaysFails(v: Version, d: ProjectData)
    ensures ExportPdfAsWritten(v, d, DefinedColours) == NameError("DARK_GREY")
  {
    assert FirstUndefined(StyleColours, DefinedColours) == Some("DARK_GREY");
  }

  /** With `DARK_GREY` defined, v7.1 builds its story, but v8.3 still fails at
      the first row of the metadata table: the loop as v7.1 writes it is the
      one that yields the table of `MetadataTableLayout`. */
  lemma V8TableFails(d: ProjectData)
    ensures ExportPdfAsWritten(V8, d, DefinedColours + {"DARK_GREY"}) == ValueError(4)
    ensures ExportPdfAsWritten(V7, d, DefinedColours + {"DARK_GREY"}) == Built(PdfStory(V7, d))
    ensures forall i :: 0 <= i < |MetadataFields| ==>
      PairRowAsWritten(V7, MetadataFields, d.metadata, i) == RowOk(PairRow(MetadataFields, d.metadata, i))
  {
    IntendedColoursDefined();
  }

  /** With `DARK_GREY` defined, every colour the style sheet asks for exists. */
  lemma IntendedColoursDefined()
    ensures FirstUndefined(StyleColours, DefinedColours + {"DARK_GREY"}) == None
  {
  }

  /** `_export_to_pdf` with the colour defined: the story is built, the
      metadata table two fields per step, then one group per section. */
  method BuildPdfStory(v: Version, d: ProjectData) returns (story: seq<Flowable>)
    ensures story == PdfStory(v, d)
  {
    var table := PackMetadata(MetadataFields, d.metadata);
    var head := [Para(Paragraph("Warehouse Safety Compliance Report", MainHeader)),
      Para(Paragraph(SubHeaderText(d.metadata), SubHeader)),
      Para(Paragraph("Report Information", MetaHeader)),
      MetaTable(table), Spacer, Para(Paragraph("Checklist Items", MetaHeader))];
    var groups := BuildSectionGroups(Structure, d.checklist);
    var nearMiss := BuildNearMiss(d.nearMiss);
    var tail := [Spacer, Para(Paragraph("Action Points / Recommendations", MetaHeader)), Para(ActionPara(d.actionPoints)),
      Spacer, Para(Paragraph(LinksTitle(v), MetaHeader))] + Paras(NoneParas(d.generalAttachments));
    story := Assemble(head, groups, nearMiss, tail);
  }

  /** The metadata table loop: `for i in range(0, len(fields), 2)`, one row per step. */
  method PackMetadata(fields: seq<string>, meta: map<string, string>) returns (rows: seq<TableRow>)
    ensures rows == PairRows(fields, meta, (|fields| + 1) / 2)
  {
    rows := [];
    var i, n := 0, 0;
    while i < |fields|
      invariant i == 2 * n && i <= |fields| + 1
      invariant rows == PairRows(fields, meta, n)
    {
      var row := PackRow(fields, meta, i);
      PairRowsStep(fields, meta, n);
      rows := rows + [row];
      i, n := i + 2, n + 1;
    }
    assert |fields| + 1 == 2 * n || |fields| + 1 == 2 * n + 1;
    assert (|fields| + 1) / 2 == n;
  }

  lemma PairRowsStep(fields: seq<string>, meta: map<string, string>, n: nat)
    requires 2 * n < |fields|
    ensures PairRows(fields, meta, n + 1) == PairRows(fields, meta, n) + [PairRow(fields, meta, 2 * n)]
  {
  }

  /** One step of the metadata table loop: the fields `i` and `i + 1`, the
      second pair left empty past the last field. */
  method PackRow(fields: seq<string>, meta: map<string, string>, i: nat) returns (row: TableRow)
    requires i < |fields|
    ensures row == PairRow(fields, meta, i)
  {
    var label1 := Paragraph(LabelMarkup(fields[i]), MetaLabel);
    var value1 := MetaValuePara(meta, fields[i]);
    var label2, value2 := EmptyCell, EmptyCell;
    if i + 1 < |fields| {
      label2 := Filled(Paragraph(LabelMarkup(fields[i + 1]), MetaLabel));
      value2 := Filled(MetaValuePara(meta, fields[i + 1]));
    }
    row := TableRow(label1, value1, label2, value2);
  }

  /** The checklist loop: one group per section, in order. */
  method BuildSectionGroups(ss: seq<Section>, answers: map<string, string>) returns (groups: seq<Flowable>)
    ensures groups == SectionGroups(ss, answers)
  {
    groups := [];
    for k := 0 to |ss|
      invariant groups == SectionGroups(ss[..k], answers)
    {
      var items := BuildSectionItems(ss[k], answers);
      groups := groups + [KeepTogether(items)];
      SectionGroupsStep(ss, k, answers);
    }
    assert ss[..|ss|] == ss;
  }

  lemma SectionGroupsStep(ss: seq<Section>, k: nat, answers: map<string, string>)
    requires k < |ss|
    ensures SectionGroups(ss[..k + 1], answers) == SectionGroups(ss[..k], answers) + [KeepTogether(SectionItems(ss[k], answers))]
  {
    assert ss[..k + 1][..k] == ss[..k];
  }

  /** The question loop of one section. */
  method BuildSectionItems(s: Section, answers: map<string, string>) returns (items: seq<Paragraph>)
    ensures items == SectionItems(s, answers)
  {
    var title := Paragraph(s.title, SectionHeader);
    var paras: seq<Paragraph> := [];
    for j := 0 to |s.questions|
      invariant paras == QuestionsParas(s.questions[..j], answers)
    {
      var q := s.questions[j];
      paras := paras + [QuestionPara(q), AnswerPara(q, answers)];
      QuestionsParasStep(s.questions, j, answers);
    }
    assert s.questions[..|s.questions|] == s.questions;
    items := [title] + paras;
  }

  lemma QuestionsParasStep(qs: seq<Question>, j: nat, answers: map<string, string>)
    requires j < |qs|
    ensures QuestionsParas(qs[..j + 1], answers) == QuestionsParas(qs[..j], answers) + [QuestionPara(qs[j]), AnswerPara(qs[j], answers)]
  {
    assert qs[..j + 1][..j] == qs[..j];
  }

  /** The near-miss block: the field loop when some detail is filled in,
      followed by the evidence links. */
  method BuildNearMiss(nm: NearMissData) returns (block: seq<Flowable>)
    ensures block == NearMissBlock(nm)
  {
    if !AnyDetail(nm.details) {
      return [Para(Paragraph("[No Near Miss Recorded]", AnswerEmpty))];
    }
    var content: seq<Paragraph> := [];
    for i := 0 to 5
      invariant content == DetailsParas(nm.details, i)
    {
      content := content + DetailParas(nm.details, i);
    }
    content := content + [Paragraph("<b>Evidence Links (Near Miss):</b>", AttachLabel)];
    block := [KeepTogether(content + NoneParas(nm.attachments))];
  }
}
