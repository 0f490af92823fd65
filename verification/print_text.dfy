/**
 * The clinical text that `handlePrint` (src/App.jsx) writes into the
 * printed prescription: the symptom and test paragraphs and the one-line
 * summary of the neurological examination. The surrounding HTML, the print
 * window and the dates are not part of this model.
 */
module PrintText {
  import opened Common

  /** A symptom option as the symptom select holds it. */
  datatype SymptomOption = SymptomOption(value: int, caption: string)

  /**
   * A value of the neurological-examination state: selects and text areas
   * store strings, check boxes store booleans. A key that was never set is
   * absent from the map (`undefined`).
   */
  datatype ExamValue = Text(text: string) | Flag(checked: bool)

  /** JavaScript truthiness of a stored value. */
  predicate Truthy(v: ExamValue)
  {
    match v
    case Text(s) => s != ""
    case Flag(b) => b
  }

  /** Characters `String.prototype.trim` removes (the common ones). */
  predicate IsTrimmed(c: char)
  {
    c == ' ' || c == '\t' || c == '\n' || c == '\r' || c == '\U{000B}' || c == '\U{000C}'
    || c == '\U{00A0}' || c == '\U{2028}' || c == '\U{2029}' || c == '\U{FEFF}'
  }

  /** `s.trim() === ""` */
  predicate IsBlank(s: string)
  {
    forall i :: 0 <= i < |s| ==> IsTrimmed(s[i])
  }

  /** One row of the examination table: printed label, state key, check-box or not. */
  datatype ExamField = ExamField(caption: string, key: string, isCheck: bool)

  /** The table `handlePrint` walks, in its order. */
  const ExamFields: seq<ExamField> := [
    ExamField("Motor Function", "motor_function", false),
    ExamField("Muscle Tone", "muscle_tone", false),
    ExamField("Muscle Strength", "muscle_strength", false),
    ExamField("Straight Leg Test", "straight_leg_raise_test", false),
    ExamField("Reflexes", "deep_tendon_reflexes", false),
    ExamField("Gait", "gait_assessment", false),
    ExamField("Plantars", "plantar_reflex", false),
    ExamField("Pupils", "pupillary_reaction", false),
    ExamField("Speech", "speech_assessment", false),
    ExamField("Coordination", "coordination", false),
    ExamField("Sensory Exam", "sensory_examination", false),
    ExamField("Cranial Nerves", "cranial_nerves", false),
    ExamField("Mental Status", "mental_status", false),
    ExamField("Cerebellar Function", "cerebellar_function", false),
    ExamField("Muscle Wasting", "muscle_wasting", false),
    ExamField("Abnormal Movements", "abnormal_movements", false),
    ExamField("Romberg Test", "romberg_test", false),
    ExamField("Nystagmus", "nystagmus", false),
    ExamField("Fundoscopy", "fundoscopy", false),
    ExamField("MMSE Score", "mmse_score", false),
    ExamField("GCS Score", "gcs_score", false),
    ExamField("Sensation", "pain_sensation", true),
    ExamField("Vibration Sense", "vibration_sense", true),
    ExamField("Proprioception", "proprioception", true),
    ExamField("Temp Sensation", "temperature_sensation", true),
    ExamField("Brudzinski Sign", "brudzinski_sign", true),
    ExamField("Kernig Sign", "kernig_sign", true),
    ExamField("Facial Sensation", "facial_sensation", true),
    ExamField("Swallowing", "swallowing_function", true),
    ExamField("Diagnosis", "diagnosis", false),
    ExamField("Treatment Plan", "treatment_plan", false)
  ]

  /** The filter: the key is set and, if it holds a string, not blank. */
  predicate Present(exam: map<string, ExamValue>, key: string)
  {
    key in exam && (exam[key].Flag? || !IsBlank(exam[key].text))
  }

  /**
   * The displayed value: check boxes read Positive or Negative by
   * truthiness; other fields show the value, or "-" when it is falsy.
   */
  function Display(field: ExamField, v: ExamValue): string
  {
    if field.isCheck then (if Truthy(v) then "Positive" else "Negative")
    else match v
      case Text(s) => if s != "" then s else "-"
      case Flag(b) => if b then "true" else "-"
  }

  function Part(field: ExamField, v: ExamValue): string
  {
    field.caption + ": " + Display(field, v)
  }

  /** The fields the filter keeps, in table order (the reference for ExamParts). */
  function PresentFields(fields: seq<ExamField>, exam: map<string, ExamValue>): seq<ExamField>
  {
    if |fields| == 0 then []
    else (if Present(exam, fields[0].key) then [fields[0]] else []) + PresentFields(fields[1..], exam)
  }

  /** The filter keeps exactly the fields whose key is present, and no more fields than the table has. */
  lemma {:induction false} PresentFieldsSpec(fields: seq<ExamField>, exam: map<string, ExamValue>)
    ensures |PresentFields(fields, exam)| <= |fields|
    ensures forall f :: f in PresentFields(fields, exam) <==> f in fields && Present(exam, f.key)
  {
    if |fields| > 0 {
      PresentFieldsSpec(fields[1..], exam);
      assert fields == [fields[0]] + fields[1..];
    }
  }

  /** `.filter(...).map(...)`, fused into one walk over the table. */
  function ExamParts(fields: seq<ExamField>, exam: map<string, ExamValue>): (r: seq<string>)
  {
    if |fields| == 0 then []
    else if Present(exam, fields[0].key) then
      [Part(fields[0], exam[fields[0].key])] + ExamParts(fields[1..], exam)
    else ExamParts(fields[1..], exam)
  }

  /** Each printed part is the rendering of the kept field at the same position. */
  lemma {:induction false} ExamPartsFollowKept(fields: seq<ExamField>, exam: map<string, ExamValue>)
    ensures var kept := PresentFields(fields, exam);
      var parts := ExamParts(fields, exam);
      && |parts| == |kept|
      && forall i :: 0 <= i < |parts| ==> kept[i].key in exam && parts[i] == Part(kept[i], exam[kept[i].key])
  {
    if |fields| > 0 {
      ExamPartsFollowKept(fields[1..], exam);
      var kept, rest := PresentFields(fields, exam), PresentFields(fields[1..], exam);
      var parts, restParts := ExamParts(fields, exam), ExamParts(fields[1..], exam);
      if Present(exam, fields[0].key) {
        assert kept == [fields[0]] + rest;
        assert parts == [Part(fields[0], exam[fields[0].key])] + restParts;
        forall i | 1 <= i < |parts|
          ensures kept[i].key in exam && parts[i] == Part(kept[i], exam[kept[i].key])
        {
          assert parts[i] == restParts[i - 1] && kept[i] == rest[i - 1];
        }
      } else {
        assert kept == rest && parts == restParts;
      }
    }
  }

  /** The separator between the parts of the examination line. */
  const ExamSep: string := "; "

  /** The kept parts of a field table joined by "; ", then ".". */
  function Summary(fields: seq<ExamField>, exam: map<string, ExamValue>): string
  {
    Join(ExamParts(fields, exam), ExamSep) + "."
  }

  /** The "Examination:" paragraph of the printed prescription. */
  function ExamSummary(exam: map<string, ExamValue>): string
  {
    Summary(ExamFields, exam)
  }

  /**
   * Every kept check-box field reads "Positive" when its value is truthy
   * and "Negative" otherwise (so an unchecked box still prints), and every
   * kept text field shows its own text.
   */
  lemma ExamPartsRender(fields: seq<ExamField>, exam: map<string, ExamValue>, i: nat)
    requires i < |PresentFields(fields, exam)|
    ensures |ExamParts(fields, exam)| == |PresentFields(fields, exam)|
    ensures var f := PresentFields(fields, exam)[i];
      var p := ExamParts(fields, exam)[i];
      && f in fields && f.key in exam
      && (f.isCheck ==> p == f.caption + ": " + (if Truthy(exam[f.key]) then "Positive" else "Negative"))
      && (!f.isCheck && exam[f.key].Text? ==> p == f.caption + ": " + exam[f.key].text)
  {
    ExamPartsFollowKept(fields, exam);
    PresentFieldsSpec(fields, exam);
    var kept := PresentFields(fields, exam);
    var f := kept[i];
    assert f in kept;
    assert ExamParts(fields, exam)[i] == Part(f, exam[f.key]);
    if exam[f.key].Text? && exam[f.key].text == "" {
      assert IsBlank(exam[f.key].text);
    }
  }

  /**
   * The summary ends in "." and holds each kept part, in table order, at
   * its join offset (`SentencePlacesSep` adds the "; " between them).
   */
  lemma SummaryListsParts(fields: seq<ExamField>, exam: map<string, ExamValue>, i: nat)
    requires i < |ExamParts(fields, exam)|
    ensures var parts := ExamParts(fields, exam);
      var s := Summary(fields, exam);
      var o := Offset(parts, ExamSep, i);
      && s[|s| - 1] == '.'
      && o + |parts[i]| < |s|
      && s[o..o + |parts[i]|] == parts[i]
  {
    var parts := ExamParts(fields, exam);
    assert Summary(fields, exam) == Join(parts, ExamSep) + ".";
    SentencePlacesPart(parts, ExamSep, i);
  }

  /** An examination with nothing entered prints just ".". */
  lemma {:induction false} EmptyExamSummary(fields: seq<ExamField>)
    ensures ExamParts(fields, map[]) == []
    ensures Summary(fields, map[]) == "."
  {
    if |fields| > 0 {
      EmptyExamSummary(fields[1..]);
    }
  }

  function Labels(symptoms: seq<SymptomOption>): (r: seq<string>)
    ensures |r| == |symptoms| && forall i :: 0 <= i < |r| ==> r[i] == symptoms[i].caption
  {
    if |symptoms| == 0 then [] else [symptoms[0].caption] + Labels(symptoms[1..])
  }

  /** "Symptoms:" paragraph: the labels joined by ", " and a period, or a fixed sentence. */
  function SymptomParagraph(symptoms: seq<SymptomOption>): (r: string)
    ensures |symptoms| == 0 ==> r == "No symptoms noted."
    ensures |symptoms| > 0 ==> |r| > 0 && r[|r| - 1] == '.'
  {
    if |symptoms| > 0 then Join(Labels(symptoms), ", ") + "." else "No symptoms noted."
  }

  /** "Recommended Tests:" paragraph over the selected test names. */
  function TestParagraph(tests: seq<string>): (r: string)
    ensures |tests| == 0 ==> r == "No tests recommended."
    ensures |tests| > 0 ==> |r| > 0 && r[|r| - 1] == '.'
  {
    if |tests| > 0 then Join(tests, ", ") + "." else "No tests recommended."
  }

  /**
   * With symptoms selected, the paragraph ends in "." and lists every
   * selected label in selection order, each at its offset.
   */
  lemma SymptomParagraphListsLabel(symptoms: seq<SymptomOption>, i: nat)
    requires i < |symptoms|
    ensures var s := SymptomParagraph(symptoms);
      var o := Offset(Labels(symptoms), ", ", i);
      && s[|s| - 1] == '.'
      && o + |symptoms[i].caption| < |s|
      && s[o..o + |symptoms[i].caption|] == symptoms[i].caption
  {
    var labels := Labels(symptoms);
    assert labels[i] == symptoms[i].caption;
    assert SymptomParagraph(symptoms) == Join(labels, ", ") + ".";
    SentencePlacesPart(labels, ", ", i);
  }

  /** The same for the selected tests. */
  lemma TestParagraphListsTest(tests: seq<string>, i: nat)
    requires i < |tests|
    ensures var s := TestParagraph(tests);
      var o := Offset(tests, ", ", i);
      && s[|s| - 1] == '.'
      && o + |tests[i]| < |s|
      && s[o..o + |tests[i]|] == tests[i]
  {
    assert TestParagraph(tests) == Join(tests, ", ") + ".";
    SentencePlacesPart(tests, ", ", i);
  }
}
