/** The fixed checklist definition: sections of (question text, answer kind,
    mandatory) triples, and the two program versions the model covers. */
module Checklist {
  import opened Common

  /** v7.1 is `main.py`, v8.3 is `Checklist_genrator.py`. */
  datatype Version = V7 | V8

  /** The source's "yes_no" and "text" tags. */
  datatype AnswerKind = YesNo | Text

  datatype Question = Question(text: string, kind: AnswerKind, mandatory: bool)

  datatype Section = Section(title: string, questions: seq<Question>)

  /** CHECKLIST_STRUCTURE: nine sections, twenty-one questions. */
  const Structure: seq<Section> := [
    Section("Fire Safety Training", [
      Question("Have you commenced Fire Safety presentations as scheduled?", YesNo, true),
      Question("How are you tracking training completion?", Text, true)]),
    Section("Documentation & Certifications", [
      Question("Is your Fire NOC valid and current?", YesNo, true),
      Question("Are warehouse fire layout diagrams displayed properly?", YesNo, true)]),
    Section("Safety Infrastructure", [
      Question("Have fluorescent markings been installed for emergency evacuation routes?", YesNo, true),
      Question("Are smoke detection systems, fire alarms, and emergency notification boards in place?", YesNo, true),
      Question("When was the last functionality test for sprinkler systems and fire hydrants?", Text, true)]),
    Section("Operational Protocols", [
      Question("Is visitor registration being properly maintained?", YesNo, true),
      Question("Have daily SOPs and safety checklists been implemented?", YesNo, true),
      Question("How are you enforcing the prohibition of fire-ignition tools?", Text, true),
      Question("Have you established machinery inspection schedules for hazard identification?", YesNo, true)]),
    Section("Maintenance Documentation", [
      Question("Has the procurement team implemented maintenance logbook protocols?", YesNo, true)]),
    Section("Personnel Qualification", [
      Question("Have you verified ITI certification or equivalent for all electrical personnel?", YesNo, true)]),
    Section("Safety Engagement Initiatives", [
      Question("What safety engagement activities have you organized recently?", Text, false),
      Question("Which best practices from training have you implemented?", Text, false),
      Question("Have you developed facility-specific internal safety protocols?", YesNo, true)]),
    Section("Compliance Verification", [
      Question("Have cross-Warehouse audits been conducted?", YesNo, false),
      Question("Is your monthly machinery safety inspection schedule established?", YesNo, true),
      Question("When was your last mock drill conducted?", Text, true),
      Question("How are you maintaining inspection and compliance records?", Text, true)]),
    Section("Seasonal Safety", [
      Question("Have all seasonal equipment (water coolers, etc.) been inspected?", YesNo, true)])
  ]

  /** The questions of `ss` in iteration order (sections first to last). */
  function Flatten(ss: seq<Section>): seq<Question> {
    if ss == [] then [] else Flatten(ss[..|ss| - 1]) + ss[|ss| - 1].questions
  }

  /** The texts of `qs`, in order. */
  function Texts(qs: seq<Question>): (r: seq<string>)
    ensures |r| == |qs|
    ensures forall i :: 0 <= i < |qs| ==> r[i] == qs[i].text
  {
    if qs == [] then [] else Texts(qs[..|qs| - 1]) + [qs[|qs| - 1].text]
  }

  /** The distinct texts of `qs`. */
  function TextSet(qs: seq<Question>): set<string> {
    set t | t in Texts(qs)
  }

  /** The texts of two runs of questions are the texts of each. */
  lemma TextSetAppend(a: seq<Question>, b: seq<Question>)
    ensures TextSet(a + b) == TextSet(a) + TextSet(b)
  {
    assert Texts(a + b) == Texts(a) + Texts(b);
  }

  /** The keys an answer map must have: every question text of the definition. */
  function QuestionKeys(): set<string> {
    set t | t in Texts(Flatten(Structure))
  }

  /** The definition asks its questions section by section, twenty-one in all. */
  lemma StructureQuestions()
    ensures Flatten(Structure) == Structure[0].questions + Structure[1].questions + Structure[2].questions
      + Structure[3].questions + Structure[4].questions + Structure[5].questions
      + Structure[6].questions + Structure[7].questions + Structure[8].questions
    ensures |Flatten(Structure)| == 21
  {
    assert Flatten(Structure[..1]) == Structure[0].questions;
    assert Flatten(Structure[..2]) == Flatten(Structure[..1]) + Structure[1].questions;
    assert Structure[..3][..2] == Structure[..2];
    assert Flatten(Structure[..3]) == Flatten(Structure[..2]) + Structure[2].questions;
    assert Structure[..4][..3] == Structure[..3];
    assert Flatten(Structure[..4]) == Flatten(Structure[..3]) + Structure[3].questions;
    assert Structure[..5][..4] == Structure[..4];
    assert Flatten(Structure[..5]) == Flatten(Structure[..4]) + Structure[4].questions;
    assert Structure[..6][..5] == Structure[..5];
    assert Flatten(Structure[..6]) == Flatten(Structure[..5]) + Structure[5].questions;
    assert Structure[..7][..6] == Structure[..6];
    assert Flatten(Structure[..7]) == Flatten(Structure[..6]) + Structure[6].questions;
    assert Structure[..8][..7] == Structure[..7];
    assert Flatten(Structure[..8]) == Flatten(Structure[..7]) + Structure[7].questions;
    assert Structure[..9] == Structure && Structure[..9][..8] == Structure[..8];
    assert Flatten(Structure) == Flatten(Structure[..8]) + Structure[8].questions;
  }

  /** The lengths of the twenty-one question texts, in order. */
  const TextLens: seq<int> := [58, 41, 35, 54, 73, 85, 77, 50, 55, 61, 78, 67, 79, 62, 56, 63, 43, 65, 40, 58, 65]

  /** Only two pairs of question texts have equal lengths. */
  lemma TextLengths()
    ensures forall i, j :: 0 <= i < j < |TextLens| && TextLens[i] == TextLens[j] ==> (i == 0 && j == 19) || (i == 17 && j == 20)
  {
  }

  lemma StructureLengths()
    ensures |Texts(Flatten(Structure))| == 21
    ensures forall i :: 0 <= i < 21 ==> |Texts(Flatten(Structure))[i]| == TextLens[i]
  {
    LengthsFirst();
    LengthsRest();
  }

  lemma LengthsFirst()
    ensures |Texts(Flatten(Structure))| == 21
    ensures forall i :: 0 <= i < 10 ==> |Texts(Flatten(Structure))[i]| == TextLens[i]
  {
    StructureQuestions();
  }

  lemma LengthsRest()
    ensures |Texts(Flatten(Structure))| == 21
    ensures forall i :: 10 <= i < 21 ==> |Texts(Flatten(Structure))[i]| == TextLens[i]
  {
    StructureQuestions();
  }

  /** The two pairs of equal length differ at one position each. */
  lemma TieBreaks()
    ensures |Texts(Flatten(Structure))| == 21
    ensures Texts(Flatten(Structure))[0] != Texts(Flatten(Structure))[19]
    ensures Texts(Flatten(Structure))[17] != Texts(Flatten(Structure))[20]
  {
    StructureQuestions();
    var ts := Texts(Flatten(Structure));
    assert ts[0][56] == 'd' && ts[19][56] == 's';
    assert ts[17][61] == 'h' && ts[20][61] == 't';
  }

  /** No two questions share a text (answers are looked up in one flat map). */
  lemma DistinctTexts()
    ensures NoDuplicates(Texts(Flatten(Structure)))
  {
    StructureLengths();
    TieBreaks();
    TextLengths();
    var ts := Texts(Flatten(Structure));
    forall i, j | 0 <= i < j < |ts| ensures ts[i] != ts[j] {
      if !((i == 0 && j == 19) || (i == 17 && j == 20)) {
        assert |ts[i]| == TextLens[i] && |ts[j]| == TextLens[j];
      }
    }
  }

  /** A sequence without duplicates has as many distinct elements as entries. */
  lemma {:induction false} DistinctCount<T>(s: seq<T>)
    requires NoDuplicates(s)
    ensures |set x | x in s| == |s|
  {
    if s != [] {
      var init := s[..|s| - 1];
      assert NoDuplicates(init);
      DistinctCount(init);
      var last := s[|s| - 1];
      assert last !in init;
      assert (set x | x in s) == (set x | x in init) + {last};
    }
  }

  /** The answer map has one key per question: twenty-one keys. */
  lemma QuestionKeyCount()
    ensures |QuestionKeys()| == 21
  {
    DistinctTexts();
    StructureQuestions();
    DistinctCount(Texts(Flatten(Structure)));
  }

  /** How both exporters show a question: its text with " *" appended when it
      is mandatory. */
  function DisplayText(q: Question): string {
    q.text + (if q.mandatory then " *" else "")
  }

  /** `t` is a question: it ends in '?'. */
  predicate IsQuestion(t: string) {
    t != [] && t[|t| - 1] == '?'
  }

  predicate AllQuestions(qs: seq<Question>) {
    forall i :: 0 <= i < |qs| ==> IsQuestion(qs[i].text)
  }

  /** `Flatten` keeps a property every section's questions have. */
  lemma {:induction false} FlattenAll(ss: seq<Section>)
    requires forall k :: 0 <= k < |ss| ==> AllQuestions(ss[k].questions)
    ensures AllQuestions(Flatten(ss))
  {
    if ss != [] {
      var init := ss[..|ss| - 1];
      FlattenAll(init);
      var a := Flatten(init);
      var b := ss[|ss| - 1].questions;
      assert AllQuestions(b);
      assert forall i :: |a| <= i < |a| + |b| ==> (a + b)[i] == b[i - |a|];
    }
  }

  lemma SectionMarksFirst()
    ensures forall k :: 0 <= k < 4 ==> AllQuestions(Structure[k].questions)
  {
  }

  lemma SectionMarksRest()
    ensures forall k :: 4 <= k < 9 ==> AllQuestions(Structure[k].questions)
  {
  }

  /** Every question text of the definition ends in '?'. */
  lemma QuestionMarks()
    ensures AllQuestions(Flatten(Structure))
  {
    SectionMarksFirst();
    SectionMarksRest();
    FlattenAll(Structure);
  }

  /** An exported label ends in " *" exactly when its question is mandatory,
      and the question text can be read back from the front of the label. */
  lemma MandatoryMarker(q: Question)
    requires IsQuestion(q.text)
    ensures EndsWith(DisplayText(q), " *") <==> q.mandatory
    ensures StartsWith(DisplayText(q), q.text)
  {
    var t := q.text;
    var d := DisplayText(q);
    assert d[..|t|] == t;
    if !q.mandatory {
      assert d[|d| - 1] == '?';
    }
  }

  /** Every question of the built-in checklist is exported with " *"
      appended exactly when it is mandatory, after its full text. */
  lemma DefinitionMarkers()
    ensures forall i :: 0 <= i < |Flatten(Structure)| ==>
      (EndsWith(DisplayText(Flatten(Structure)[i]), " *") <==> Flatten(Structure)[i].mandatory)
      && StartsWith(DisplayText(Flatten(Structure)[i]), Flatten(Structure)[i].text)
  {
    var qs := Flatten(Structure);
    QuestionMarks();
    forall i | 0 <= i < |qs|
      ensures (EndsWith(DisplayText(qs[i]), " *") <==> qs[i].mandatory)
        && StartsWith(DisplayText(qs[i]), qs[i].text)
    {
      MandatoryMarker(qs[i]);
    }
  }

  /** The title of the last block of both exports: v8.3 renamed it. */
  function LinksTitle(v: Version): string {
    match v
    case V7 => "General Evidence Links"
    case V8 => "Overall Supporting Links"
  }
}
