/**
 * The prescription lines of a consultation (`selectedMedicines` in
 * src/App.jsx): append a default Tablet line, change one field pair (English
 * value and Urdu label) of the line at an index, pick the medicine of a
 * line, and remove the line at an index.
 */
module Prescription {
  import opened Common

  datatype MedicineLine = MedicineLine(
    medicineId: Option<int>,   // None while the line has no medicine (`medicine_id: ""`)
    form: string,
    dosageEn: string, dosageUrdu: string,
    frequencyEn: string, frequencyUrdu: string,
    durationEn: string, durationUrdu: string,
    instructionsEn: string, instructionsUrdu: string)

  /** The four selects of a line, each setting an English value and an Urdu label. */
  datatype PairField = Frequency | Dosage | Duration | Instructions

  /** `MEDICINE_DEFAULTS.Tablet` spread into a fresh line without a medicine. */
  const DefaultTabletLine: MedicineLine := MedicineLine(
    None, "Tablet",
    "1", "ایک گولی (1 Tablet)",
    "morning_evening", "صبح، شام (Morning & Evening)",
    "5_days", "5 دن (5 Days)",
    "after_meal", "کھانے کے بعد (After Meal)")

  /** The "Add New Medication" button. */
  function AddDefaultLine(lines: seq<MedicineLine>): (r: seq<MedicineLine>)
    ensures |r| == |lines| + 1
    ensures r[..|lines|] == lines
    ensures r[|lines|].medicineId.None? && r[|lines|].form == "Tablet"
    ensures r[|lines|] == DefaultTabletLine
  {
    lines + [DefaultTabletLine]
  }

  function PairOf(line: MedicineLine, field: PairField): (string, string)
  {
    match field
    case Frequency => (line.frequencyEn, line.frequencyUrdu)
    case Dosage => (line.dosageEn, line.dosageUrdu)
    case Duration => (line.durationEn, line.durationUrdu)
    case Instructions => (line.instructionsEn, line.instructionsUrdu)
  }

  /** `{ ...item, <field>_en: e.value, <field>_urdu: e.label }` */
  function WithPair(line: MedicineLine, field: PairField, en: string, urdu: string): (r: MedicineLine)
    ensures PairOf(r, field) == (en, urdu)
    ensures forall g :: g != field ==> PairOf(r, g) == PairOf(line, g)
    ensures r.medicineId == line.medicineId && r.form == line.form
  {
    match field
    case Frequency => line.(frequencyEn := en, frequencyUrdu := urdu)
    case Dosage => line.(dosageEn := en, dosageUrdu := urdu)
    case Duration => line.(durationEn := en, durationUrdu := urdu)
    case Instructions => line.(instructionsEn := en, instructionsUrdu := urdu)
  }

  /**
   * `prev.map((item, i) => i === index ? {...} : item)` for one of the four
   * selects: only the line at `index` changes, and only in that pair; an
   * index past the end changes nothing.
   */
  function UpdatePair(lines: seq<MedicineLine>, index: nat, field: PairField, en: string, urdu: string)
    : (r: seq<MedicineLine>)
    ensures |r| == |lines|
    ensures forall i :: 0 <= i < |r| && i != index ==> r[i] == lines[i]
    ensures index < |r| ==>
      PairOf(r[index], field) == (en, urdu)
      && (forall g :: g != field ==> PairOf(r[index], g) == PairOf(lines[index], g))
      && r[index].medicineId == lines[index].medicineId
    ensures index < |r| ==> r[index] == WithPair(lines[index], field, en, urdu)
  {
    if |lines| == 0 then []
    else
      [if index == 0 then WithPair(lines[0], field, en, urdu) else lines[0]]
      + if index == 0 then lines[1..] else UpdatePair(lines[1..], index - 1, field, en, urdu)
  }

  /** The medicine select's `onChange`: the line at `index` takes the chosen medicine. */
  function ChooseMedicine(lines: seq<MedicineLine>, index: nat, id: int): (r: seq<MedicineLine>)
    ensures |r| == |lines|
    ensures forall i :: 0 <= i < |r| && i != index ==> r[i] == lines[i]
    ensures index < |r| ==>
      && r[index].medicineId == Some(id)
      && r[index].form == lines[index].form
      && (forall g :: PairOf(r[index], g) == PairOf(lines[index], g))
  {
    if index < |lines| then lines[index := lines[index].(medicineId := Some(id))] else lines
  }

  /**
   * The medicine select's `onCreateOption`: the id returned by the creation
   * is used only when it is truthy (a failed creation returns null).
   */
  function AdoptCreatedMedicine(lines: seq<MedicineLine>, index: nat, newId: Option<int>): (r: seq<MedicineLine>)
    ensures newId.None? || newId.value == 0 ==> r == lines
    ensures newId.Some? && newId.value != 0 ==> r == ChooseMedicine(lines, index, newId.value)
  {
    if newId.Some? && newId.value != 0 then ChooseMedicine(lines, index, newId.value) else lines
  }

  /** `prev.filter((_, i) => i !== index)`, written as the filter walks the list. */
  function RemoveAt(lines: seq<MedicineLine>, index: nat): (r: seq<MedicineLine>)
    ensures index < |lines| ==> r == lines[..index] + lines[index + 1..]
    ensures index >= |lines| ==> r == lines
  {
    if |lines| == 0 then []
    else if index == 0 then lines[1..]
    else
      var rest := RemoveAt(lines[1..], index - 1);
      assert index < |lines| ==>
        && [lines[0]] + lines[1..][..index - 1] == lines[..index]
        && lines[1..][index..] == lines[index + 1..];
      [lines[0]] + rest
  }

  /** Choosing a medicine and then removing its line is the same as removing the line. */
  lemma RemoveForgetsChoice(lines: seq<MedicineLine>, index: nat, id: int)
    ensures RemoveAt(ChooseMedicine(lines, index, id), index) == RemoveAt(lines, index)
  {
    if index < |lines| {
      var c := ChooseMedicine(lines, index, id);
      assert c[..index] == lines[..index];
      assert c[index + 1..] == lines[index + 1..];
    }
  }

  /** Removing the line that was just added gives back the old list. */
  lemma RemoveUndoesAdd(lines: seq<MedicineLine>)
    ensures RemoveAt(AddDefaultLine(lines), |lines|) == lines
  {
    assert AddDefaultLine(lines)[..|lines|] == lines;
  }

  lemma WithPairTwice(line: MedicineLine, f: PairField, en1: string, urdu1: string, en2: string, urdu2: string)
    ensures WithPair(WithPair(line, f, en1, urdu1), f, en2, urdu2) == WithPair(line, f, en2, urdu2)
  {
    match f
    case Frequency =>
    case Dosage =>
    case Duration =>
    case Instructions =>
  }

  lemma WithPairCommute(line: MedicineLine, f: PairField, en1: string, urdu1: string,
                        g: PairField, en2: string, urdu2: string)
    requires f != g
    ensures WithPair(WithPair(line, f, en1, urdu1), g, en2, urdu2)
         == WithPair(WithPair(line, g, en2, urdu2), f, en1, urdu1)
  {
    match f
    case Frequency =>
    case Dosage =>
    case Duration =>
    case Instructions =>
  }

  /** Two changes to the same pair of the same line: the later one wins. */
  lemma LaterPairUpdateWins(
    lines: seq<MedicineLine>, index: nat, field: PairField, en1: string, urdu1: string, en2: string, urdu2: string)
    ensures UpdatePair(UpdatePair(lines, index, field, en1, urdu1), index, field, en2, urdu2)
         == UpdatePair(lines, index, field, en2, urdu2)
  {
    if index < |lines| {
      WithPairTwice(lines[index], field, en1, urdu1, en2, urdu2);
    }
  }

  /** Changes to different lines, or to different pairs, commute. */
  lemma PairUpdatesCommute(
    lines: seq<MedicineLine>, i: nat, f: PairField, en1: string, urdu1: string,
    j: nat, g: PairField, en2: string, urdu2: string)
    requires i != j || f != g
    ensures UpdatePair(UpdatePair(lines, i, f, en1, urdu1), j, g, en2, urdu2)
         == UpdatePair(UpdatePair(lines, j, g, en2, urdu2), i, f, en1, urdu1)
  {
    var a := UpdatePair(UpdatePair(lines, i, f, en1, urdu1), j, g, en2, urdu2);
    var b := UpdatePair(UpdatePair(lines, j, g, en2, urdu2), i, f, en1, urdu1);
    forall k | 0 <= k < |lines|
      ensures a[k] == b[k]
    {
      if k == i && k == j {
        WithPairCommute(lines[i], f, en1, urdu1, g, en2, urdu2);
      }
    }
  }
}
