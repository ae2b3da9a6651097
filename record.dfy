/** The report record as a value: the project document that `get_all_data`
    produces and `load_data` consumes, the default record a reset produces,
    the blank test used by "New", the export gate and the default file names. */
module Record {
  import opened Common
  import opened Checklist

  /** The metadata fields, in the order the source's dictionary holds them. */
  const MetadataFields: seq<string> := ["Warehouse Name", "Location", "Report Date", "Report Month",
    "Uploaded By Name", "Uploaded By Role", "Uploaded By Emp ID", "Uploaded By Email", "Manager Name"]
  const MetadataKeys: set<string> := set f | f in MetadataFields

  /** The two metadata fields a reset fills with the current date. */
  const ReportDate: string := "Report Date"
  const ReportMonth: string := "Report Month"

  /** The near-miss detail fields, in order. */
  const NearMissFields: seq<string> := ["Incident Date", "Incident Location", "Description",
    "Immediate Action", "Prevention Suggestion"]
  const NearMissKeys: set<string> := set f | f in NearMissFields

  /** The metadata fields export requires, in the order they are reported. */
  const RequiredFields: seq<string> := ["Warehouse Name", "Location", "Uploaded By Name", "Uploaded By Role"]

  /** The current date as the three `strftime` renderings the source uses:
      `%Y-%m-%d`, `%B %Y` and `%Y%m%d`. */
  datatype Today = Today(isoDate: string, monthYear: string, compactDate: string)

  /** The "near_miss" object of the project file. */
  datatype NearMissData = NearMissData(details: map<string, string>, attachments: seq<string>)

  /** The project file's JSON object. A section missing from a loaded file is
      represented by what `dict.get` substitutes for it: `{}`, `[]` or `""`. */
  datatype ProjectData = ProjectData(
    metadata: map<string, string>,
    checklist: map<string, string>,
    nearMiss: NearMissData,
    actionPoints: string,
    generalAttachments: seq<string>)

  /** A document whose maps have exactly the record's keys, as `get_all_data` builds it. */
  predicate WellFormed(d: ProjectData) {
    && d.metadata.Keys == MetadataKeys
    && d.checklist.Keys == QuestionKeys()
    && d.nearMiss.details.Keys == NearMissKeys
  }

  /** Every key mapped to the empty string. */
  function Blank(keys: set<string>): (m: map<string, string>)
    ensures m.Keys == keys
    ensures forall k :: k in m ==> m[k] == ""
  {
    map k | k in keys :: ""
  }

  /** The record right after a reset at date `now`. */
  function DefaultData(now: Today): (d: ProjectData)
    ensures WellFormed(d)
  {
    ProjectData(
      Blank(MetadataKeys)[ReportDate := now.isoDate][ReportMonth := now.monthYear],
      Blank(QuestionKeys()),
      NearMissData(Blank(NearMissKeys), []),
      "",
      [])
  }

  /** A reset leaves every answer empty, every metadata value empty except the
      two dates, every near-miss detail empty, and no links or action points. */
  lemma DefaultContents(now: Today)
    ensures DefaultData(now).checklist.Keys == QuestionKeys()
    ensures forall q :: q in DefaultData(now).checklist ==> DefaultData(now).checklist[q] == ""
    ensures DefaultData(now).metadata[ReportDate] == now.isoDate
    ensures DefaultData(now).metadata[ReportMonth] == now.monthYear
    ensures forall k :: k in MetadataKeys && k != ReportDate && k != ReportMonth ==> DefaultData(now).metadata[k] == ""
    ensures forall k :: k in NearMissKeys ==> DefaultData(now).nearMiss.details[k] == ""
    ensures DefaultData(now).nearMiss.attachments == [] && DefaultData(now).generalAttachments == []
    ensures DefaultData(now).actionPoints == ""
  {
  }

  /** `for k, v in loaded.items(): if k in current: current[k] = v` —
      only keys already present are updated; the key set never changes. */
  function UpdateKnown(current: map<string, string>, loaded: map<string, string>): (r: map<string, string>)
    ensures r.Keys == current.Keys
    ensures forall k :: k in current && k in loaded ==> r[k] == loaded[k]
    ensures forall k :: k in current && k !in loaded ==> r[k] == current[k]
  {
    map k | k in current :: if k in loaded then loaded[k] else current[k]
  }

  /** The record `load_data(doc)` leaves when applied to the record `base`:
      known keys updated, unknown keys ignored, lists and text replaced. */
  function Loaded(base: ProjectData, doc: ProjectData): ProjectData {
    ProjectData(
      UpdateKnown(base.metadata, doc.metadata),
      UpdateKnown(base.checklist, doc.checklist),
      NearMissData(UpdateKnown(base.nearMiss.details, doc.nearMiss.details), doc.nearMiss.attachments),
      doc.actionPoints,
      doc.generalAttachments)
  }

  /** Loading never adds or removes a key: a key the file has but the record
      lacks is ignored, and the URL lists are taken verbatim, duplicates included. */
  lemma LoadedKeepsShape(base: ProjectData, doc: ProjectData)
    requires WellFormed(base)
    ensures WellFormed(Loaded(base, doc))
    ensures forall q :: q in doc.checklist && q !in QuestionKeys() ==> q !in Loaded(base, doc).checklist
    ensures Loaded(base, doc).nearMiss.attachments == doc.nearMiss.attachments
    ensures Loaded(base, doc).generalAttachments == doc.generalAttachments
  {
  }

  /** Save/load round trip: loading a well-formed snapshot onto any well-formed
      record (in particular a freshly reset one) reproduces the snapshot. */
  lemma RoundTrip(base: ProjectData, doc: ProjectData)
    requires WellFormed(base) && WellFormed(doc)
    ensures Loaded(base, doc) == doc
  {
    UpdateAll(base.metadata, doc.metadata);
    UpdateAll(base.checklist, doc.checklist);
    UpdateAll(base.nearMiss.details, doc.nearMiss.details);
  }

  /** `load_data` as v8.3 writes it: after the near-miss links it calls
      `getattr` with four arguments, which raises a TypeError once the window
      is built; the handler swallows it, so the action points and the general
      links are never taken from the document. */
  function LoadedAsWrittenV8(base: ProjectData, doc: ProjectData): ProjectData {
    Loaded(base, doc).(actionPoints := base.actionPoints, generalAttachments := base.generalAttachments)
  }

  /** Opening a saved file in v8.3 as written (a reset, then the load) keeps
      everything but the action points and general links, which stay empty:
      the round trip holds only for a document that has neither. */
  lemma V8LoadLosesTail(now: Today, doc: ProjectData)
    requires WellFormed(doc)
    ensures LoadedAsWrittenV8(DefaultData(now), doc) == doc.(actionPoints := "", generalAttachments := [])
    ensures LoadedAsWrittenV8(DefaultData(now), doc) == doc <==> doc.actionPoints == "" && doc.generalAttachments == []
  {
    RoundTrip(DefaultData(now), doc);
  }

  /** Updating every key of a map replaces it. */
  lemma UpdateAll(current: map<string, string>, loaded: map<string, string>)
    requires current.Keys == loaded.Keys
    ensures UpdateKnown(current, loaded) == loaded
  {
  }

  /** The `has_data` test of `new_checklist`: any non-date metadata value, any
      answer, any near-miss detail, any link or any action-point text. */
  predicate HasData(d: ProjectData) {
    || (exists k :: k in d.metadata && k != ReportDate && k != ReportMonth && d.metadata[k] != "")
    || (exists q :: q in d.checklist && d.checklist[q] != "")
    || (exists k :: k in d.nearMiss.details && d.nearMiss.details[k] != "")
    || d.nearMiss.attachments != []
    || d.actionPoints != ""
    || d.generalAttachments != []
  }

  /** A well-formed record is blank exactly when it is the default record for
      its own two date values. */
  lemma BlankIffDefault(d: ProjectData, now: Today)
    requires WellFormed(d)
    requires d.metadata[ReportDate] == now.isoDate && d.metadata[ReportMonth] == now.monthYear
    ensures !HasData(d) <==> d == DefaultData(now)
  {
    var def := DefaultData(now);
    assert !HasData(def);
    if !HasData(d) {
      AllBlank(d.checklist);
      AllBlank(d.nearMiss.details);
      assert d.metadata == def.metadata;
    }
  }

  /** A map whose values are all empty is the blank map of its keys. */
  lemma AllBlank(m: map<string, string>)
    requires forall k :: k in m ==> m[k] == ""
    ensures m == Blank(m.Keys)
  {
  }

  /** Setting one checklist answer to a non-empty value makes the record non-blank. */
  lemma AnswerMakesData(d: ProjectData, q: string, a: string)
    requires q in d.checklist && a != ""
    ensures HasData(d.(checklist := d.checklist[q := a]))
  {
    var d' := d.(checklist := d.checklist[q := a]);
    assert q in d'.checklist && d'.checklist[q] != "";
  }

  /** `any(nm_details.values())`: some near-miss detail is filled in. */
  predicate AnyDetail(details: map<string, string>) {
    exists k :: k in details && details[k] != ""
  }

  /** `s` occurs in `t` in order, possibly with gaps. */
  predicate IsSubsequence(s: seq<string>, t: seq<string>) {
    if s == [] then true
    else if t == [] then false
    else if s[0] == t[0] then IsSubsequence(s[1..], t[1..])
    else IsSubsequence(s, t[1..])
  }

  /** The fields of `fields` whose value in `meta` is empty, in order. */
  function Missing(fields: seq<string>, meta: map<string, string>): (r: seq<string>)
    requires forall f :: f in fields ==> f in meta
    ensures forall f :: f in r <==> f in fields && meta[f] == ""
    ensures IsSubsequence(r, fields)
  {
    if fields == [] then []
    else if meta[fields[0]] == "" then [fields[0]] + Missing(fields[1..], meta)
    else Missing(fields[1..], meta)
  }

  /** `validate_for_export`'s list: the required fields left empty, in the
      order Warehouse Name, Location, Uploaded By Name, Uploaded By Role.
      Export proceeds exactly when it is empty. */
  function MissingRequired(meta: map<string, string>): (r: seq<string>)
    requires MetadataKeys <= meta.Keys
    ensures IsSubsequence(r, RequiredFields)
    ensures forall f :: f in r <==> f in RequiredFields && meta[f] == ""
    ensures r == [] <==> forall f :: f in RequiredFields ==> meta[f] != ""
  {
    var r := Missing(RequiredFields, meta);
    assert r != [] ==> r[0] in r;
    r
  }

  /** A record with every required field filled except Location is refused with
      exactly ["Location"]. */
  lemma OnlyLocationMissing(meta: map<string, string>)
    requires MetadataKeys <= meta.Keys
    requires meta["Location"] == ""
    requires meta["Warehouse Name"] != "" && meta["Uploaded By Name"] != "" && meta["Uploaded By Role"] != ""
    ensures MissingRequired(meta) == ["Location"]
  {
    var rest := RequiredFields[2..];
    assert Missing(rest, meta) == [] by {
      assert Missing(rest[1..], meta) == Missing(rest[2..], meta);
    }
    assert Missing(RequiredFields[1..], meta) == ["Location"];
  }

  /** The warehouse part of a default file name: spaces become underscores,
      and an empty name becomes "UnknownWH". */
  function WarehousePart(meta: map<string, string>): string
    requires "Warehouse Name" in meta
  {
    var w := ReplaceChar(meta["Warehouse Name"], ' ', '_');
    if w == "" then "UnknownWH" else w
  }

  /** The date part of a default file name: the Report Date, or today's
      `%Y%m%d` date when the Report Date is empty. */
  function DatePart(meta: map<string, string>, now: Today): string
    requires ReportDate in meta
  {
    if meta[ReportDate] != "" then meta[ReportDate] else now.compactDate
  }

  /** The initial file name `save_project_as` proposes. */
  function ProjectFileName(meta: map<string, string>, now: Today): string
    requires "Warehouse Name" in meta && ReportDate in meta
  {
    "SafetyChecklist_" + WarehousePart(meta) + "_" + DatePart(meta, now) + ".json"
  }

  /** The initial file name `export_data` proposes, before the extension. */
  function ExportBaseName(meta: map<string, string>, now: Today): string
    requires "Warehouse Name" in meta && ReportDate in meta
  {
    "SafetyReport_" + WarehousePart(meta) + "_" + DatePart(meta, now)
  }

  /** The warehouse part never contains a space; it is "UnknownWH" when the
      name is empty and otherwise keeps the name's length and every non-space
      character. */
  lemma WarehousePartShape(meta: map<string, string>)
    requires "Warehouse Name" in meta
    ensures ' ' !in WarehousePart(meta)
    ensures meta["Warehouse Name"] == "" ==> WarehousePart(meta) == "UnknownWH"
    ensures meta["Warehouse Name"] != "" ==>
      |WarehousePart(meta)| == |meta["Warehouse Name"]| &&
      forall i :: 0 <= i < |meta["Warehouse Name"]| && meta["Warehouse Name"][i] != ' ' ==>
        WarehousePart(meta)[i] == meta["Warehouse Name"][i]
  {
    ReplaceCharRemoves(meta["Warehouse Name"], ' ', '_');
  }

  /** The proposed names carry their fixed prefix and extension. */
  lemma FileNameShape(meta: map<string, string>, now: Today)
    requires "Warehouse Name" in meta && ReportDate in meta
    ensures StartsWith(ProjectFileName(meta, now), "SafetyChecklist_")
    ensures EndsWith(ProjectFileName(meta, now), ".json")
    ensures StartsWith(ExportBaseName(meta, now), "SafetyReport_")
  {
    var p := ProjectFileName(meta, now);
    assert p[..|"SafetyChecklist_"|] == "SafetyChecklist_";
    assert p[|p| - 5..] == ".json";
    var e := ExportBaseName(meta, now);
    assert e[..|"SafetyReport_"|] == "SafetyReport_";
  }
}
