/** The application object (`WarehouseSafetyApp`): the report record the form
    edits, the project file path, and the commands of the File menu and the
    two export buttons. Dialog answers, the outcome of file reads and writes,
    library availability and the current date are parameters. */
module App {
  import opened Common
  import opened Checklist
  import opened Record
  import opened Links
  import Excel
  import Pdf

  /** What a file dialog gives back: a path (the empty path is how the dialog
      reports that it was cancelled), or an exception raised by the dialog. */
  datatype Dialog = Chosen(path: string) | DialogFailed

  /** What opening and parsing the chosen project file gives. */
  datatype ReadResult =
    | Parsed(doc: ProjectData)
    | NotFound     // FileNotFoundError
    | DecodeError  // json.JSONDecodeError
    | ReadFailed   // any other exception

  /** A project file as written: its path and the document dumped into it. */
  datatype SavedFile = SavedFile(path: string, doc: ProjectData)

  datatype NewOutcome = KeptCurrent | StartedNew
  datatype SaveOutcome = SaveCancelled | Saved(file: SavedFile) | SaveFailed
  datatype LoadOutcome = OpenCancelled | Opened(path: string) | FileMissing | InvalidFile | LoadFailed

  datatype Format = ExcelFormat | PdfFormat

  /** The content an export writes. */
  datatype Report = ExcelReport(workbook: Excel.Workbook) | PdfReport(story: seq<Pdf.Flowable>)

  datatype ExportOutcome =
    | MissingInformation(missing: seq<string>)  // refused by `validate_for_export`
    | MissingLibrary                             // openpyxl or reportlab not importable
    | ExportCancelled
    | Exported(path: string, report: Report)
    | ExportFailed                               // the dialog or the writer raised

  /** The extension the export dialogs append to the proposed name. */
  function Extension(f: Format): (r: string)
    ensures |r| == if f == ExcelFormat then 5 else 4
    ensures r[0] == '.'
  {
    match f
    case ExcelFormat => ".xlsx"
    case PdfFormat => ".pdf"
  }

  /** The name an export dialog proposes starts with "SafetyReport_", ends in
      the extension of its format, and the Excel and PDF proposals for the
      same record differ. */
  lemma ExportNames(meta: map<string, string>, now: Today, f: Format)
    requires "Warehouse Name" in meta && ReportDate in meta
    ensures StartsWith(ExportBaseName(meta, now) + Extension(f), "SafetyReport_")
    ensures EndsWith(ExportBaseName(meta, now) + Extension(f), Extension(f))
    ensures ExportBaseName(meta, now) + Extension(ExcelFormat) != ExportBaseName(meta, now) + Extension(PdfFormat)
  {
    var b := ExportBaseName(meta, now);
    var n := b + Extension(f);
    FileNameShape(meta, now);
    assert n[..|"SafetyReport_"|] == b[..|"SafetyReport_"|];
    assert n[|n| - |Extension(f)|..] == Extension(f);
    var x := b + Extension(ExcelFormat);
    assert x[|b| + 1] == 'x';
  }

  /** What the exporter of format `f` writes for the record `d`. */
  function ReportOf(f: Format, v: Version, d: ProjectData): Report {
    match f
    case ExcelFormat => ExcelReport(Excel.Workbook(Excel.SheetTitle(v), Excel.Layout(v, d)))
    case PdfFormat => PdfReport(Pdf.PdfStory(v, d))
  }

  /** The `format_type` dispatch of `export_data`: the Excel or the PDF exporter. */
  method BuildReport(f: Format, v: Version, d: ProjectData) returns (report: Report)
    requires d.metadata.Keys == MetadataKeys
    ensures report == ReportOf(f, v, d)
  {
    match f {
      case ExcelFormat =>
        var wb := Excel.ExportToExcel(v, d);
        report := ExcelReport(wb);
      case PdfFormat =>
        var story := Pdf.BuildPdfStory(v, d);
        report := PdfReport(story);
    }
  }

  /** The loops of `_initialize_checklist_vars`, over any definition: one empty
      answer for every question, whatever its kind. */
  method BlankAnswers(ss: seq<Section>) returns (m: map<string, string>)
    ensures m == Blank(TextSet(Flatten(ss)))
  {
    m := map[];
    for i := 0 to |ss|
      invariant m.Keys == TextSet(Flatten(ss[..i]))
      invariant forall k :: k in m ==> m[k] == ""
    {
      var qs := ss[i].questions;
      ghost var before := m.Keys;
      for j := 0 to |qs|
        invariant m.Keys == before + TextSet(qs[..j])
        invariant forall k :: k in m ==> m[k] == ""
      {
        match qs[j].kind {
          case YesNo => m := m[qs[j].text := ""];
          case Text => m := m[qs[j].text := ""];
        }
        TextSetSnoc(qs, j);
      }
      assert qs[..|qs|] == qs;
      FlattenStep(ss, i);
      TextSetAppend(Flatten(ss[..i]), qs);
    }
    assert ss[..|ss|] == ss;
    AllBlank(m);
  }

  /** One more question adds its text. */
  lemma TextSetSnoc(qs: seq<Question>, j: nat)
    requires j < |qs|
    ensures TextSet(qs[..j + 1]) == TextSet(qs[..j]) + {qs[j].text}
  {
    assert qs[..j + 1] == qs[..j] + [qs[j]];
    TextSetAppend(qs[..j], [qs[j]]);
    assert Texts([qs[j]]) == [qs[j].text];
  }

  /** One more section adds its questions. */
  lemma FlattenStep(ss: seq<Section>, i: nat)
    requires i < |ss|
    ensures Flatten(ss[..i + 1]) == Flatten(ss[..i]) + ss[i].questions
  {
    assert ss[..i + 1][..i] == ss[..i];
  }

  /** `for var in d.values(): var.set("")`: every value emptied, keys kept. */
  method ClearValues(m: map<string, string>) returns (r: map<string, string>)
    ensures r == Blank(m.Keys)
  {
    r := m;
    var todo := m.Keys;
    while todo != {}
      invariant todo <= m.Keys && r.Keys == m.Keys
      invariant forall k :: k in r && k !in todo ==> r[k] == ""
      decreases todo
    {
      var k :| k in todo;
      r := r[k := ""];
      todo := todo - {k};
    }
  }

  /** The loops of `load_data`: `for k, v in loaded.items(): if k in current:
      current[k].set(v)`. */
  method Merge(current: map<string, string>, loaded: map<string, string>) returns (r: map<string, string>)
    ensures r == UpdateKnown(current, loaded)
  {
    r := current;
    var todo := loaded.Keys;
    while todo != {}
      invariant todo <= loaded.Keys && r.Keys == current.Keys
      invariant forall k :: k in current && k in loaded && k !in todo ==> r[k] == loaded[k]
      invariant forall k :: k in current && (k !in loaded || k in todo) ==> r[k] == current[k]
      decreases todo
    {
      var k :| k in todo;
      if k in r {
        r := r[k := loaded[k]];
      }
      todo := todo - {k};
    }
  }

  class App {
    var metadata: map<string, string>
    var checklist: map<string, string>
    var nearMissDetails: map<string, string>
    var actionPoints: string
    /** `project_file_path`; never the empty path, which Python treats as unset. */
    var projectPath: Option<string>
    /** The URL lists, shared with their link panels. */
    const nearMissLinks: LinkList
    const generalLinks: LinkList
    const version: Version
    /** The answer keys, fixed when the checklist variables are first built. */
    ghost const answerKeys: set<string>

    /** The record's maps hold exactly the form's fields, and the two lists are
        distinct objects. */
    ghost predicate Valid()
      reads this
    {
      && metadata.Keys == MetadataKeys
      && checklist.Keys == answerKeys
      && nearMissDetails.Keys == NearMissKeys
      && nearMissLinks != generalLinks
      && projectPath != Some("")
    }

    /** The answer keys are the question texts of the definition. */
    ghost predicate Built() {
      answerKeys == QuestionKeys()
    }

    /** `get_all_data`: the record as the document saved and exported. */
    function GetAllData(): ProjectData
      reads this, nearMissLinks, generalLinks
    {
      ProjectData(metadata, checklist, NearMissData(nearMissDetails, nearMissLinks.urls),
        actionPoints, generalLinks.urls)
    }

    /** The saved document has exactly the record's keys. */
    lemma DataWellFormed()
      requires Valid() && Built()
      ensures WellFormed(GetAllData())
    {
    }

    /** `__init__`: the dates of `now`, every other field empty, no project file. */
    constructor (v: Version, now: Today)
      ensures Valid() && Built() && fresh(nearMissLinks) && fresh(generalLinks)
      ensures version == v && projectPath == None
      ensures GetAllData() == DefaultData(now)
    {
      version := v;
      projectPath := None;
      metadata := Blank(MetadataKeys)[ReportDate := now.isoDate][ReportMonth := now.monthYear];
      checklist := map[];
      nearMissDetails := Blank(NearMissKeys);
      actionPoints := "";
      nearMissLinks := new LinkList();
      generalLinks := new LinkList();
      answerKeys := QuestionKeys();
      new;
      InitializeChecklistVars();
    }

    /** `_initialize_checklist_vars`: the answer map is rebuilt with one empty
        answer per question of the definition; nothing else changes. */
    method InitializeChecklistVars()
      modifies this
      ensures checklist == Blank(QuestionKeys())
      ensures metadata == old(metadata) && nearMissDetails == old(nearMissDetails)
      ensures actionPoints == old(actionPoints) && projectPath == old(projectPath)
    {
      checklist := BlankAnswers(Structure);
    }

    /** `_clear_all_fields`: the record becomes the default record of `now`;
        the project path is kept. */
    method ClearAllFields(now: Today)
      requires Valid() && Built()
      modifies this, nearMissLinks, generalLinks
      ensures Valid() && projectPath == old(projectPath)
      ensures GetAllData() == DefaultData(now)
    {
      metadata := ClearValues(metadata);
      metadata := metadata[ReportDate := now.isoDate][ReportMonth := now.monthYear];
      InitializeChecklistVars();
      nearMissDetails := ClearValues(nearMissDetails);
      nearMissLinks.Clear();
      actionPoints := "";
      generalLinks.Clear();
    }

    /** `load_data`: known keys take the document's values, unknown keys are
        ignored, the URL lists and the action points are replaced. */
    method LoadData(doc: ProjectData)
      requires Valid()
      modifies this, nearMissLinks, generalLinks
      ensures Valid() && projectPath == old(projectPath)
      ensures GetAllData() == Loaded(old(GetAllData()), doc)
    {
      metadata := Merge(metadata, doc.metadata);
      checklist := Merge(checklist, doc.checklist);
      nearMissDetails := Merge(nearMissDetails, doc.nearMiss.details);
      nearMissLinks.Clear();
      nearMissLinks.Extend(doc.nearMiss.attachments);
      actionPoints := doc.actionPoints;
      generalLinks.Clear();
      generalLinks.Extend(doc.generalAttachments);
    }

    /** `new_checklist`: confirmation is asked only when a project file is open
        or the record has data; `confirmed` is the answer. Declining keeps
        everything; otherwise the record is reset and the path forgotten. */
    method NewChecklist(confirmed: bool, now: Today) returns (r: NewOutcome)
      requires Valid() && Built()
      modifies this, nearMissLinks, generalLinks
      ensures Valid()
      ensures r == if (old(projectPath).Some? || HasData(old(GetAllData()))) && !confirmed then KeptCurrent else StartedNew
      ensures r == KeptCurrent ==> GetAllData() == old(GetAllData()) && projectPath == old(projectPath)
      ensures r == StartedNew ==> GetAllData() == DefaultData(now) && projectPath == None
      ensures old(projectPath) == None && old(GetAllData()) == DefaultData(now) ==> r == StartedNew
    {
      if GetAllData() == DefaultData(now) {
        DataWellFormed();
        BlankIffDefault(GetAllData(), now);
      }
      if projectPath.Some? || HasData(GetAllData()) {
        if !confirmed {
          return KeptCurrent;
        }
      }
      ClearAllFields(now);
      projectPath := None;
      r := StartedNew;
    }

    /** `_write_project_file`: on success the current record is written to
        `path`; on failure nothing is written and the path is forgotten. */
    method WriteProjectFile(path: string, writeOk: bool) returns (written: Option<SavedFile>)
      requires Valid()
      modifies this
      ensures Valid() && GetAllData() == old(GetAllData())
      ensures written == if writeOk then Some(SavedFile(path, old(GetAllData()))) else None
      ensures projectPath == if writeOk then old(projectPath) else None
    {
      var data := GetAllData();
      if writeOk {
        written := Some(SavedFile(path, data));
      } else {
        written := None;
        projectPath := None;
      }
    }

    /** `save_project_as`: proposes a file name; a cancelled dialog changes
        nothing; a chosen path becomes the project path if the write succeeds
        and is forgotten if it fails. When the dialog itself fails, v7.1 keeps
        the old path and v8.3 forgets it. */
    method SaveProjectAs(dialog: Dialog, writeOk: bool, now: Today) returns (r: SaveOutcome, proposed: string)
      requires Valid()
      modifies this
      ensures Valid() && GetAllData() == old(GetAllData())
      ensures proposed == ProjectFileName(metadata, now)
      ensures dialog == Chosen("") ==> r == SaveCancelled && projectPath == old(projectPath)
      ensures dialog == DialogFailed ==>
        r == SaveFailed && projectPath == (if version == V7 then old(projectPath) else None)
      ensures dialog.Chosen? && dialog.path != "" ==>
        && r == (if writeOk then Saved(SavedFile(dialog.path, old(GetAllData()))) else SaveFailed)
        && projectPath == (if writeOk then Some(dialog.path) else None)
    {
      proposed := ProjectFileName(metadata, now);
      var chosen: Option<string> := None;
      var failed := false;
      match dialog {
        case DialogFailed =>
          failed := true;
        case Chosen(p) =>
          if p == "" {
            return SaveCancelled, proposed;
          }
          chosen := Some(p);
          projectPath := Some(p);
          var w := WriteProjectFile(p, writeOk);
          if w.Some? {
            r := Saved(w.value);
          } else {
            failed := true;
          }
      }
      if failed {
        r := SaveFailed;
        if version == V8 && (projectPath == None || projectPath != chosen) {
          projectPath := None;
        }
      }
    }

    /** `save_project`: writes to the open project file, or behaves as "Save
        As" when there is none. */
    method SaveProject(dialog: Dialog, writeOk: bool, now: Today) returns (r: SaveOutcome)
      requires Valid()
      modifies this
      ensures Valid() && GetAllData() == old(GetAllData())
      ensures old(projectPath).Some? ==>
        && r == (if writeOk then Saved(SavedFile(old(projectPath).value, old(GetAllData()))) else SaveFailed)
        && projectPath == (if writeOk then old(projectPath) else None)
      ensures old(projectPath) == None && dialog.Chosen? && dialog.path != "" ==>
        && r == (if writeOk then Saved(SavedFile(dialog.path, old(GetAllData()))) else SaveFailed)
        && projectPath == (if writeOk then Some(dialog.path) else None)
      ensures old(projectPath) == None && dialog == Chosen("") ==> r == SaveCancelled && projectPath == None
      ensures old(projectPath) == None && dialog == DialogFailed ==> r == SaveFailed && projectPath == None
    {
      if projectPath == None {
        var proposed;
        r, proposed := SaveProjectAs(dialog, writeOk, now);
      } else {
        var w := WriteProjectFile(projectPath.value, writeOk);
        r := if w.Some? then Saved(w.value) else SaveFailed;
      }
    }

    /** `load_project`: a cancelled dialog changes nothing; a parsed file
        replaces the record by the default record of `now` merged with the
        file, and becomes the project path; a missing or unparsable file
        changes nothing; any other failure forgets the path. */
    method LoadProject(dialog: Dialog, read: ReadResult, now: Today) returns (r: LoadOutcome)
      requires Valid() && Built()
      modifies this, nearMissLinks, generalLinks
      ensures Valid()
      ensures dialog == Chosen("") ==>
        r == OpenCancelled && GetAllData() == old(GetAllData()) && projectPath == old(projectPath)
      ensures dialog == DialogFailed ==>
        r == LoadFailed && GetAllData() == old(GetAllData()) && projectPath == None
      ensures dialog.Chosen? && dialog.path != "" && read.Parsed? ==>
        && r == Opened(dialog.path) && projectPath == Some(dialog.path)
        && GetAllData() == Loaded(DefaultData(now), read.doc)
      ensures dialog.Chosen? && dialog.path != "" && read.Parsed? && WellFormed(read.doc) ==>
        GetAllData() == read.doc
      ensures dialog.Chosen? && dialog.path != "" && (read == NotFound || read == DecodeError) ==>
        && r == (if read == NotFound then FileMissing else InvalidFile)
        && GetAllData() == old(GetAllData()) && projectPath == old(projectPath)
      ensures dialog.Chosen? && dialog.path != "" && read == ReadFailed ==>
        r == LoadFailed && GetAllData() == old(GetAllData()) && projectPath == None
    {
      match dialog {
        case DialogFailed =>
          projectPath := None;
          r := LoadFailed;
        case Chosen(p) =>
          if p == "" {
            return OpenCancelled;
          }
          match read {
            case Parsed(doc) =>
              ClearAllFields(now);
              LoadData(doc);
              if WellFormed(doc) {
                RoundTrip(DefaultData(now), doc);
              }
              projectPath := Some(p);
              r := Opened(p);
            case NotFound =>
              r := FileMissing;
            case DecodeError =>
              r := InvalidFile;
            case ReadFailed =>
              projectPath := None;
              r := LoadFailed;
          }
      }
    }

    /** `export_data`: refused with the ordered list of missing required fields;
        otherwise, if the format's library is present, the dialog proposes
        `SafetyReport_<warehouse>_<date>` plus the extension, and a chosen path
        receives the report of the current record. */
    method ExportData(format: Format, available: bool, dialog: Dialog, saveOk: bool, now: Today)
      returns (r: ExportOutcome, proposed: Option<string>)
      requires metadata.Keys == MetadataKeys
      ensures r.MissingInformation? <==> MissingRequired(metadata) != []
      ensures r.MissingInformation? ==> r.missing == MissingRequired(metadata) && proposed == None
      ensures MissingRequired(metadata) == [] && !available ==> r == MissingLibrary && proposed == None
      ensures MissingRequired(metadata) == [] && available ==>
        && proposed == Some(ExportBaseName(metadata, now) + Extension(format))
        && r == match dialog
                case DialogFailed => ExportFailed
                case Chosen(p) =>
                  if p == "" then ExportCancelled
                  else if saveOk then Exported(p, ReportOf(format, version, GetAllData()))
                  else ExportFailed
    {
      var missing := MissingRequired(metadata);
      if missing != [] {
        return MissingInformation(missing), None;
      }
      var data := GetAllData();
      var base := ExportBaseName(metadata, now);
      if !available {
        return MissingLibrary, None;
      }
      proposed := Some(base + Extension(format));
      match dialog {
        case DialogFailed =>
          r := ExportFailed;
        case Chosen(p) =>
          if p == "" {
            r := ExportCancelled;
          } else {
            var report := BuildReport(format, version, data);
            r := if saveOk then Exported(p, report) else ExportFailed;
          }
      }
    }
  }
}
