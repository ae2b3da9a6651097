# Warehouse safety checklist: a Dafny model of the form filler's core

The application is a desktop form for a warehouse fire-safety audit. The user
fills in report metadata, answers a fixed checklist of nine sections and
twenty-one questions, records an optional near miss with evidence links,
writes action points and adds general evidence links. The record is saved to
and loaded from a JSON project file, and it can be exported as an Excel
workbook or as a PDF report. Export is refused while a required metadata field
is empty.

Two versions of the program exist: v7.1 (`main.py`) and v8.3
(`Checklist_genrator.py`). Both are modelled together. The datatype
`Checklist.Version` (`V7 | V8`) selects the few places where they differ:

- v8.3 adds a "Question" / "Answer" header row to the Excel checklist block;
- v8.3 merges the near-miss evidence label only over two or more links;
- the title of the last report block differs;
- the sheet title differs;
- the project path is handled differently when the "Save As" dialog itself fails.

The modules follow the program's structure:

- `Common`: `Option`, and the string operations the program uses (`startswith`, `endswith`, one-character `replace`, `dict.get`).
- `Checklist`: `CHECKLIST_STRUCTURE` as data, with the facts the program relies on. The question texts are distinct, there are twenty-one of them, and every one ends in '?'. A label ends in " *" exactly when its question is mandatory.
- `Record`: the project document (`get_all_data` / `load_data`) as a value:
  - the default record a reset produces;
  - the merge `load_data` performs, with its round trip;
  - the `has_data` test of "New";
  - the export gate `validate_for_export`;
  - the proposed file names.
- `Links`: the evidence-link lists as a class whose `urls` field `add_link` and `remove_selected_link` change in place.
- `Excel`: `_export_to_excel`. The sheet is a sequence of rows, written by methods that advance a row counter as the source does. Each method is proved equal to a layout function, and the layout's properties are proved as lemmas.
- `Pdf`: `_export_to_pdf`. It covers:
  - the markup escape and its round trip;
  - link paragraphs;
  - the two-fields-per-row metadata table;
  - the story of flowables, built by loops proved against a story function;
  - the two defects of the escape and of the style sheet (see Findings).
- `App`: the application object as a class. Its fields are the metadata, answer and near-miss maps, the action-point text, the project path and the two shared link lists. It has the File-menu commands and `export_data`.

The program's inputs from the outside world are parameters:

- file-dialog answers (`App.Dialog`: a path, the empty path for "cancelled", or a raised exception);
- the outcome of reading and parsing a project file (`App.ReadResult`);
- whether a file write succeeded;
- whether `openpyxl` / `reportlab` can be imported;
- the current date (`Record.Today`, the three `strftime` renderings the program uses).

## Model

| member | source | states |
|---|---|---|
| Common.ReplaceCharRemoves | main.py:397 | after replacing spaces by underscores no space is left, and a string without spaces is unchanged |
| Checklist.Texts | main.py:257-258 | the question texts, one per question and in the definition's order |
| Checklist.StructureQuestions | main.py:58 | the nine sections hold twenty-one questions, section after section |
| Checklist.DistinctTexts | main.py:58 | no two questions share a text, so the flat answer map keyed by text loses no question |
| Checklist.QuestionKeyCount | main.py:256-262 | the answer map built from the definition has exactly twenty-one keys |
| Checklist.FlattenAll | main.py:257-258 | a property every section's questions have holds for all questions in iteration order |
| Checklist.QuestionMarks | main.py:58 | every question text ends in '?' |
| Checklist.MandatoryMarker | main.py:609 | an exported label ends in " *" exactly when the question is mandatory, and starts with the question text |
| Checklist.DefinitionMarkers | main.py:609 | every question of the built-in checklist is exported with " *" exactly when it is mandatory, after its full text |
| Record.DefaultData | main.py:264-286 | the record after a reset has exactly the form's metadata, answer and near-miss keys |
| Record.DefaultContents | main.py:264-286 | a reset empties every answer, near-miss detail, link list and the action points, and sets only the two date fields |
| Record.UpdateKnown | main.py:316-318 | the loaded values replace those of known keys, keys the record lacks are ignored, and the key set never changes |
| Record.LoadedKeepsShape | main.py:309-347 | loading keeps the record's keys, ignores a question text the definition does not have, and takes both URL lists verbatim |
| Record.RoundTrip | main.py:461-462 | loading a saved, well-formed document onto any well-formed record (a reset one in particular) reproduces the document |
| Record.V8LoadLosesTail | Checklist_genrator.py:220-233 | as v8.3 is written, opening a saved file leaves the action points and general links empty, so the round trip holds exactly for documents that have neither |
| Record.UpdateAll | main.py:316-318 | a document that has every key of the record replaces it |
| Record.BlankIffDefault | main.py:360-365 | a record has no data exactly when it equals the default record for its own two dates |
| Record.AllBlank | main.py:361 | a map whose values are all empty is the cleared map of its keys |
| Record.AnswerMakesData | main.py:361 | giving any question a non-empty answer makes the record count as having data |
| Record.Missing | main.py:485 | the fields reported are exactly the empty ones, in their original order |
| Record.MissingRequired | main.py:482-489 | the missing list is exactly the empty required fields in the fixed order, and export proceeds exactly when it is empty |
| Record.OnlyLocationMissing | main.py:484-487 | with only Location empty the refusal lists exactly ["Location"] |
| Record.WarehousePartShape | main.py:397 | the file-name warehouse part has no space, is "UnknownWH" for an empty name, and otherwise keeps the name's length and other characters |
| Record.FileNameShape | main.py:397-399 | the proposed project name starts with "SafetyChecklist_" and ends with ".json"; the export name starts with "SafetyReport_" |
| Links.RemoveFirst | main.py:1203 | `list.remove` shortens the list by one exactly when the value is present |
| Links.RemoveFirstAt | main.py:1203 | `list.remove` cuts out the first occurrence and keeps everything before and after it in order |
| Links.RemoveAbsent | main.py:1201 | removing a value that is absent leaves the list unchanged |
| Links.RemoveFirstMultiset | main.py:1203 | `list.remove` takes exactly one copy of the value out of the list's contents |
| Links.RemoveKeepsDistinct | main.py:1189-1203 | removing from a duplicate-free list keeps it duplicate-free and leaves no copy of the removed URL |
| Links.AddThenRemove | main.py:1189-1203 | adding a new URL and then removing it restores the list |
| Links.LinkList.constructor | main.py:79 | a link list starts empty |
| Links.LinkList.AddLink | main.py:1176-1194 | empty input does nothing; a URL without an http:// or https:// prefix is refused; a duplicate is refused; otherwise the URL is appended; no duplicate is ever introduced |
| Links.LinkList.RemoveSelected | main.py:1196-1215 | no selection, or a selection not in the list, changes nothing and is reported; otherwise the first occurrence is removed |
| Links.LinkList.Clear | main.py:334 | `clear` empties the list |
| Links.LinkList.Extend | main.py:335 | `extend` appends the items in order |
| Excel.Pad | main.py:574 | writing beyond the last row creates the rows in between empty |
| Excel.Put | main.py:574 | `ws.cell(row, col, value)` sets that one cell and leaves every other row as it was |
| Excel.Merge | main.py:576 | `merge_cells` changes only the merge of the starting row |
| Excel.PutNext | main.py:585-587 | writing the row after the last appends one row |
| Excel.PutAfterGap | main.py:578-581 | a counter advanced by two leaves one empty spacer row before the next heading |
| Excel.PutLast | main.py:646-647 | writing into the last row changes only that row |
| Excel.LinkCell | main.py:647-650 | a URL cell shows the URL in the link font and is a hyperlink exactly when the URL starts with "http" |
| Excel.AnswerText | main.py:610-615 | the answer column shows the stored answer, or "[N/A]" when it is missing or empty, and is never empty |
| Excel.RowsOf | main.py:586-594 | one row per element, in order |
| Excel.QuestionRows | main.py:608-619 | one row per question, in order |
| Excel.SectionsRowsCount | main.py:603-619 | each section takes its title row plus one row per question |
| Excel.SectionsRowsPrefix | main.py:603-619 | the rows of earlier sections come before those of later ones |
| Excel.QuestionRowAt | main.py:603-619 | section k's title row follows the rows of the sections before it, and question j sits j rows below it |
| Excel.ChecklistRowCount | Checklist_genrator.py:359-367 | the checklist block has 30 rows in v7.1 and 31 in v8.3, which adds the column-header row |
| Excel.QuestionRowContents | main.py:608-619 | a question row shows the label (ending in " *" exactly when mandatory) and the stored answer or "[N/A]" |
| Excel.NoNearMissRow | main.py:657-662 | with every near-miss detail empty the block is the single "[No Near Miss Recorded]" row |
| Excel.NearMissRows | main.py:629-656 | with a detail filled in: five field rows, then the evidence label with link i in column B of row 5+i, or "[None]" |
| Excel.DetailLabels | main.py:631 | the `replace('_',' ')` on the near-miss field names changes none of them |
| Excel.EvidenceLabelMerge | Checklist_genrator.py:376-377 | v7.1 merges the evidence label over all link rows even for one link; v8.3 merges only over two or more |
| Excel.LinksRows | main.py:685-699 | the last block has one merged row per general link, or one "[None]" row |
| Excel.ExportToExcel | main.py:545-702 | the workbook saved is the sheet title of the version and the layout of the record |
| Excel.WriteMetadataBlock | main.py:580-595 | the metadata block is appended after a spacer and the counter points past it |
| Excel.WriteChecklistBlock | main.py:597-620 | the checklist block is appended after a spacer and the counter points past it |
| Excel.WriteNearMissBlock | main.py:622-663 | the near-miss block is appended after a spacer and the counter points past it |
| Excel.WriteActionBlock | main.py:665-677 | the action-points row is appended, "[None]" when empty |
| Excel.WriteLinksBlock | main.py:679-699 | the general-links block under the version's title is appended |
| Excel.WriteChecklistBody | Checklist_genrator.py:359-367 | the column-header row (v8.3 only), then the section rows |
| Excel.WriteHeading | main.py:581-585 | a heading row is written after an empty spacer row |
| Excel.WriteMetadata | main.py:586-594 | the metadata loop writes one "Key:" / value row per field, in the dictionary's order |
| Excel.WriteQuestions | main.py:608-619 | the question loop writes one row per question of a section |
| Excel.WriteSections | main.py:603-619 | the section loop writes each title row and then that section's questions |
| Excel.WriteNearMiss | main.py:628-662 | the near-miss loop writes the detail and evidence rows, or the placeholder row |
| Excel.WriteDetails | main.py:630-638 | the details loop writes one "Field:" / value-or-"[N/A]" row per field |
| Excel.WriteEvidence | main.py:639-656 | the evidence label, the links beside and below it, and the counter moved past them |
| Excel.WriteEvidenceLinks | main.py:645-651 | link i goes into column B of row start+i, the first one beside the label |
| Excel.WriteLinks | main.py:685-699 | the general-links loop writes one merged row per URL, or "[None]" |
| Pdf.ReplaceByAppend | main.py:742 | `replace` acts on each part of a concatenation separately |
| Pdf.ReplaceBySelf | main.py:742 | replacing a character by itself changes nothing |
| Pdf.EscapeIsPerChar | main.py:742 | the chain of four replacements escapes each character on its own; no replacement rewrites an earlier one's output |
| Pdf.EscapeRoundTrip | main.py:742 | the paragraph parser reads the escaped text back as exactly the user's text |
| Pdf.EscapePlain | main.py:742 | text without markup characters or newlines is unchanged by escaping |
| Pdf.AsWrittenOnlyNewlines | main.py:742 | the escape as written changes only newlines |
| Pdf.AsWrittenCounterexample | main.py:742 | as written, the user text "&lt;" reaches the parser unchanged and is read back as "<" |
| Pdf.AsWrittenRawMarkup | main.py:742 | as written, a '<' reaches the paragraph markup raw; the intended escape gives "&lt;" |
| Pdf.DisplayUrl | main.py:746 | the visible part of a link is at most 70 characters: the URL itself if shorter, otherwise its first 67 characters and "..." |
| Pdf.LinkParagraphShape | main.py:743-749 | an http URL becomes `<link href="…">…</link>` with the escaped URL as target (read back as the URL) and a visible text of at most 70 characters; any other non-empty text is its escaped self in the grey style, read back as the text; "" is "[Invalid Link]" |
| Pdf.PairRows | main.py:759-768 | the table loop produces one row per step |
| Pdf.PairRowsAt | main.py:759-768 | row j of the table starts with field 2j |
| Pdf.MetadataTableLayout | main.py:758-768 | nine fields fill five rows of two, and the last row's right half is empty |
| Pdf.MetaValueShows | main.py:760-762 | a metadata value reads back as the stored text, or "[N/A]" when missing or empty |
| Pdf.QuestionsParas | main.py:778-783 | two paragraphs per question |
| Pdf.QuestionsParasAt | main.py:778-783 | question j's label is paragraph 2j and its answer paragraph 2j+1 |
| Pdf.SectionGroups | main.py:776-784 | one kept-together group per section, in order |
| Pdf.DetailsParas | main.py:792-796 | two paragraphs per near-miss field |
| Pdf.DetailsParasAt | main.py:792-796 | field i's label and value are paragraphs 2i and 2i+1 |
| Pdf.LinkParas | main.py:799 | one link paragraph per URL, in order |
| Pdf.NoneParas | main.py:799 | the link paragraphs, or a single "[None]" when there are none |
| Pdf.NearMissBlock | main.py:789-801 | the near-miss report is a single flowable |
| Pdf.Paras | main.py:809 | each paragraph becomes one story entry, in order |
| Pdf.StoryHead | main.py:752-775 | the story opens with exactly six entries, in order: the "Warehouse Safety Compliance Report" title, the date/warehouse/location sub-header, the "Report Information" heading, the metadata table, a spacer and the "Checklist Items" heading |
| Pdf.StoryTail | main.py:804-809 | the action points and the links close the story |
| Pdf.ItemsAt | main.py:777-783 | a section group is its title, then each question's label and answer in order |
| Pdf.ChecklistGroups | main.py:775-784 | story entry 6+k is section k's group, holding its questions and answers in order |
| Pdf.NearMissOnNewPage | main.py:787-801 | the near-miss report follows a page break after the nine groups, and is a kept-together block exactly when a detail is filled in |
| Pdf.LinksCloseStory | main.py:808-809 | the story ends with the links heading and one paragraph per general link, or "[None]" |
| Pdf.QuestionParasShow | main.py:779-782 | a question paragraph reads back as its label and an answer paragraph as the stored answer, or "[N/A]" |
| Pdf.FirstUndefined | main.py:736 | none exactly when every name is defined; otherwise an undefined name of the list every earlier entry of which is defined, i.e. the first lookup that raises |
| Pdf.PdfAlwaysFails | main.py:736 | as written, every PDF export raises a NameError on `DARK_GREY` before the story is built |
| Pdf.V8TableFails | Checklist_genrator.py:428 | with `DARK_GREY` defined, the v8.3 metadata loop still raises a ValueError (four values unpacked into two names), while the v7.1 loop builds every row and the export yields the report story |
| Pdf.IntendedColoursDefined | main.py:36-46 | with `DARK_GREY` defined, every colour the style sheet asks for exists |
| Pdf.BuildPdfStory | main.py:711-812 | the story built is the report story of the record |
| Pdf.PackMetadata | main.py:757-768 | the loop `range(0, len(fields), 2)` builds the table rows |
| Pdf.PackRow | main.py:760-768 | one step pairs field i with field i+1, or with empty cells for the last field |
| Pdf.BuildSectionGroups | main.py:776-784 | the section loop builds one group per section |
| Pdf.BuildSectionItems | main.py:777-783 | the question loop builds a section's group |
| Pdf.BuildNearMiss | main.py:788-801 | the near-miss block built by the field loop |
| App.Extension | main.py:507-523 | the extension is a dot followed by four letters for Excel and three for PDF |
| App.ExportNames | main.py:507-523 | the proposed export name starts with "SafetyReport_" and ends with its format's extension, and the Excel and PDF proposals differ |
| App.BuildReport | main.py:503-527 | `format_type` selects the Excel or the PDF exporter |
| App.BlankAnswers | main.py:256-262 | the loops give every question text of the definition an empty answer, whatever its kind |
| App.ClearValues | main.py:268 | every value is emptied and the keys kept |
| App.Merge | main.py:316-318 | the load loop updates known keys only |
| App.App.DataWellFormed | main.py:288-307 | the document `get_all_data` returns has exactly the form's keys |
| App.App.constructor | main.py:73-81 | a new window holds the default record of today and no project file |
| App.App.InitializeChecklistVars | main.py:254-262 | the answer map is rebuilt with one empty answer per question |
| App.App.ClearAllFields | main.py:264-286 | the record becomes the default record of today and the project path is kept |
| App.App.LoadData | main.py:309-347 | the record becomes the merge of the old record with the document |
| App.App.NewChecklist | main.py:356-380 | confirmation is needed when a file is open or the record has data; declining keeps everything, otherwise the record is reset and the path cleared; a fresh record never asks |
| App.App.WriteProjectFile | main.py:423-442 | on success the current record is written to the path; on failure the path is forgotten |
| App.App.SaveProjectAs | Checklist_genrator.py:248-279 | proposes the default name; cancel changes nothing; a chosen path is kept only if the write succeeds; a failing dialog keeps the path in v7.1 and forgets it in v8.3 |
| App.App.SaveProject | main.py:382-391 | writes to the open project file, or acts as "Save As" when none is open: a chosen path is kept only if the write succeeds, a cancelled or failing dialog leaves no path |
| App.App.LoadProject | main.py:444-479 | cancel changes nothing; a parsed file replaces the record by the reset record merged with it (a saved document exactly) and becomes the path; missing or unparsable files change nothing; other failures forget the path |
| App.App.ExportData | main.py:491-542 | refused exactly when a required field is empty, with the ordered list; refused when the library is missing; otherwise proposes `SafetyReport_<warehouse>_<date>` plus the extension and writes the report of the current record to the chosen path |

## Left out

- Widgets, layout, fonts, colours, column widths, alignment, borders and fills are not modelled. Only the font role of each Excel cell and the style name of each PDF paragraph are kept.
- Status-bar texts, message boxes and window titles are not modelled. Their effect is recorded in the outcome datatypes (`App.SaveOutcome`, `App.LoadOutcome`, `App.ExportOutcome`, `Links.AddOutcome`, `Links.RemoveOutcome`).
- File I/O and JSON encoding are not modelled. A write is a boolean parameter. A read is a `ReadResult` holding the parsed document. The saved file is the pair (path, document) in `App.SavedFile`.
- The current date is the parameter `Record.Today`. Calendar and `strftime` formatting are not modelled.
- The checklist frame's widget rebuild (`rebuild_checklist_ui`) and the action-points text box are not modelled. The action-point text is the `actionPoints` field, which `get_all_data` reads directly.
- App.App.GetAllData: returns a value snapshot. The source returns the live URL lists, so a later change to a list would show in a document already returned; the model does not capture that aliasing. The lists themselves are objects shared between the record and its panels (`Links.LinkList`).
- App.App.LoadData: the document is typed (`Record.ProjectData`). The source's exception handler for a JSON value of the wrong shape (a list where a dictionary is expected, for instance) is not modelled, and neither are the partial updates made before such an exception.
- `Checklist_genrator.py` does not parse as written: the indentation at lines 551-552, 580-581 and 585-586 is inconsistent. Its functions are modelled as their evident intent: the logic of `main.py` apart from the version differences listed at the top and two defects of v8.3 recorded under Findings (the load that stops before the action points, and the metadata table that cannot be unpacked).
- Excel.SheetTitle: v7.1's title is the literal the source joins from two adjacent strings. The 31-character limit some spreadsheet readers place on titles is not modelled.
- App.App.ExportData and Pdf.BuildPdfStory: these use the corrected escape and a defined `DARK_GREY`. The as-written behaviour is stated separately under Findings.
- App.App.LoadData and App.App.LoadProject: in v8.3 these load the action points and general links as v7.1 does; the as-written v8.3 load is Record.LoadedAsWrittenV8 (see Findings).
- Pdf.PackMetadata and Pdf.PackRow: in v8.3 these pair the fields as v7.1 does; the as-written v8.3 step is Pdf.PairRowAsWritten (see Findings).
- The `hasattr` guards on widgets that may not exist yet are not modelled; the model is the state after the window is built.
- The "About" dialog, `on_closing` and `update_title` are not modelled. They only show messages or change the title.
- The export success, failure and cancellation messages are not modelled, only the outcome. A failure raised by the writer is `ExportFailed`.

## Findings

| source | as written | input that shows it | evidently intended | confidence | as-written member | corrected member |
|---|---|---|---|---|---|---|
| main.py:742 | `pdf_escape` replaces '&', '<' and '>' each by itself, so only newlines change | the answer "&lt;" is passed to the paragraph unchanged and printed as "<"; an answer containing "<b" reaches the markup parser raw | '&', '<' and '>' replaced by "&amp;", "&lt;" and "&gt;", so that the parser reads back exactly the user's text | not executed | Pdf.AsWrittenCounterexample | Pdf.EscapeRoundTrip |
| main.py:736 | the empty-answer paragraph style uses the colour name `DARK_GREY`, which neither version defines (the same style at Checklist_genrator.py:420) | any record: every PDF export raises a NameError before the story is built | a defined grey colour, so that the style sheet builds and the story is laid out | not executed | Pdf.PdfAlwaysFails | Pdf.IntendedColoursDefined |
| Checklist_genrator.py:228 | after loading the near-miss links, `load_data` calls `getattr` with four arguments, which raises a TypeError; the handler at line 232 swallows it, so lines 229-230 never run | opening a saved file whose action points are non-empty: they come back empty | the action points and general links are loaded like the rest, so a saved file reopens unchanged | not executed | Record.V8LoadLosesTail | Record.RoundTrip |
| Checklist_genrator.py:428 | the metadata loop unpacks `("", "") if … else (key2, val2, label, value)` into two names; the four-value tuple raises a ValueError | any record, at the first row (field 0 has a partner) | the right-hand label and value of the pair, as in v7.1 | not executed | Pdf.V8TableFails | Pdf.MetadataTableLayout |
